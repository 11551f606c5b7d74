/**
 * A handle on one asset's cache file (LLFileSystem): a position, the byte
 * count of the last read, an open mode, and the asset id and type that name
 * the file. Reads, writes, seeks and renames act on the shared disk.
 */
module CacheFile {
  import opened FileStore
  import opened AssetCache

  /** The open modes. Read and write are single bits; ReadWrite is both, Append adds bit 2 to Write. */
  const ModeRead: int := 1
  const ModeWrite: int := 2
  const ModeReadWrite: int := 3
  const ModeAppend: int := 6

  /** ReadWrite is the bitwise OR of Read and Write (their AND is 0), and Append carries the Write bit. */
  lemma ModeBits()
    ensures ModeReadWrite as bv32 == (ModeRead as bv32) | (ModeWrite as bv32)
    ensures (ModeRead as bv32) & (ModeWrite as bv32) == 0
    ensures (ModeAppend as bv32) & (ModeWrite as bv32) == ModeWrite as bv32
    ensures ModeAppend as bv32 == 4 | (ModeWrite as bv32)
  {
  }

  /** The number of bytes a read of `count` bytes at `pos` gets from a file of `size` bytes. */
  function ReadSpan(size: nat, pos: nat, count: nat): (n: nat)
    ensures n <= count
    ensures n > 0 ==> pos + n <= size
    ensures n < count ==> pos + n >= size
  {
    if pos >= size then 0 else if count <= size - pos then count else size - pos
  }

  /** What `fseek(pos)` then `fread(count)` returns from a file holding `data`. */
  function ReadBytes(data: seq<byte>, pos: nat, count: nat): (r: seq<byte>)
    ensures |r| == ReadSpan(|data|, pos, count)
    ensures forall i :: 0 <= i < |r| ==> pos + i < |data| && r[i] == data[pos + i]
  {
    var n := ReadSpan(|data|, pos, count);
    if n == 0 then [] else data[pos..pos + n]
  }

  /**
   * What `fseek(pos)` then `fwrite(buf)` leaves in a file holding `data`:
   * buf at pos, the bytes around it unchanged, a gap past the old end
   * filled with zeros, and no truncation. Writing no bytes changes nothing.
   */
  function Overwrite(data: seq<byte>, pos: nat, buf: seq<byte>): (r: seq<byte>)
    ensures buf == [] ==> r == data
    ensures buf != [] ==> |r| == if pos + |buf| > |data| then pos + |buf| else |data|
    ensures buf != [] ==> r[pos..pos + |buf|] == buf
    ensures forall i :: 0 <= i < pos && i < |data| ==> r[i] == data[i]
    ensures buf != [] ==> forall i :: |data| <= i < pos ==> r[i] == 0
    ensures forall i :: pos + |buf| <= i < |data| ==> r[i] == data[i]
  {
    if buf == [] then data
    else
      var head := if pos <= |data| then data[..pos] else data + seq(pos - |data|, _ => 0 as byte);
      var tail := if pos + |buf| < |data| then data[pos + |buf|..] else [];
      assert (head + buf + tail)[pos..pos + |buf|] == buf;
      head + buf + tail
  }

  /** `fopen` with "a+b" or "wb" succeeds: the path is free or holds a regular file. */
  predicate CanOpenForWriting(files: Files, p: Path) {
    p !in files || files[p].kind == Regular
  }

  /** The bytes a regular file holds, and none for anything else. */
  function ContentsOf(files: Files, p: Path): seq<byte> {
    if IsRegularFile(files, p) then files[p].bytes else []
  }

  datatype WriteOutcome = WriteOutcome(ok: bool, files: Files, position: nat)

  /** A write that leaves the file as it was: no bytes into a file that append or read-write mode opens without truncating. */
  predicate WritesNothing(files: Files, p: Path, mode: int, buf: seq<byte>) {
    buf == [] && p in files && (mode == ModeAppend || mode == ModeReadWrite)
  }

  /**
   * The effect of a write of buf through a handle in the given mode at the
   * given position: append, overwrite in place (creating a missing file), or
   * truncate. A file that gets bytes, is created or is truncated gets the
   * write time `now`; a write of no bytes into a file opened without
   * truncation leaves it as it was.
   */
  function WriteEffect(files: Files, p: Path, mode: int, pos: nat, buf: seq<byte>, now: int): (w: WriteOutcome)
    ensures w.ok <==> CanOpenForWriting(files, p)
    ensures !w.ok ==> w.files == files && w.position == pos
    ensures w.ok ==> p in w.files && w.files[p].kind == Regular && |buf| <= w.position
    ensures w.ok && WritesNothing(files, p, mode, buf) ==> w.files == files
    ensures w.ok && !WritesNothing(files, p, mode, buf) ==> w.files[p].mtime == now
    ensures w.ok && buf != [] ==> w.position <= |w.files[p].bytes|
    ensures w.ok && buf != [] ==> w.files[p].bytes[w.position - |buf|..w.position] == buf
    ensures forall q :: q != p ==> (q in w.files <==> q in files) && (q in files ==> w.files[q] == files[q])
  {
    if !CanOpenForWriting(files, p) then
      WriteOutcome(false, files, pos)
    else if mode == ModeAppend then
      var data := ContentsOf(files, p) + buf;
      assert data[|data| - |buf|..] == buf;
      if WritesNothing(files, p, mode, buf) then WriteOutcome(true, files, |data|)
      else WriteOutcome(true, files[p := Entry(Regular, data, now)], |data|)
    else if mode == ModeReadWrite && p in files then
      if buf == [] then WriteOutcome(true, files, pos)
      else WriteOutcome(true, files[p := Entry(Regular, Overwrite(files[p].bytes, pos, buf), now)], pos + |buf|)
    else
      WriteOutcome(true, files[p := Entry(Regular, buf, now)], |buf|)
  }

  /**
   * A read-write handle positioned past the end of a shorter file: writing
   * no bytes keeps the file's bytes and time, and the position stays past
   * the end.
   */
  lemma EmptyWritePastEnd()
    ensures var files := map["f" := Entry(Regular, [1, 2], 5)];
      var w := WriteEffect(files, "f", ModeReadWrite, 10, [], 9);
      w.ok && w.files == files && w.position == 10 && w.position > |w.files["f"].bytes|
  {
  }

  /** Append mode adds buf at the end of what was there and leaves the position at the new end. */
  lemma WriteAppends(files: Files, p: Path, pos: nat, buf: seq<byte>, now: int)
    requires CanOpenForWriting(files, p)
    ensures var w := WriteEffect(files, p, ModeAppend, pos, buf, now);
      w.files[p].bytes == ContentsOf(files, p) + buf && w.position == |w.files[p].bytes|
  {
  }

  /**
   * ReadWrite mode overwrites an existing file at the position without
   * truncating it, and creates a missing one holding just buf.
   */
  lemma WriteOverwritesInPlace(files: Files, p: Path, pos: nat, buf: seq<byte>, now: int)
    requires CanOpenForWriting(files, p)
    ensures var w := WriteEffect(files, p, ModeReadWrite, pos, buf, now);
      && (p in files ==> w.files[p].bytes == Overwrite(files[p].bytes, pos, buf)
                         && |w.files[p].bytes| >= |files[p].bytes|
                         && w.position == pos + |buf|)
      && (p !in files ==> w.files[p].bytes == buf && w.position == |buf|)
  {
  }

  /** Every other mode truncates: the file holds just buf, and the position is its end. */
  lemma WriteTruncates(files: Files, p: Path, mode: int, pos: nat, buf: seq<byte>, now: int)
    requires CanOpenForWriting(files, p)
    requires mode != ModeAppend && mode != ModeReadWrite
    ensures var w := WriteEffect(files, p, mode, pos, buf, now);
      w.files[p].bytes == buf && w.position == |buf|
  {
  }

  /** After a successful write, seeking back by |buf| and reading |buf| bytes returns buf. */
  lemma {:induction false} WriteThenReadBack(files: Files, p: Path, mode: int, pos: nat, buf: seq<byte>, now: int)
    requires CanOpenForWriting(files, p)
    ensures var w := WriteEffect(files, p, mode, pos, buf, now);
      ReadBytes(w.files[p].bytes, w.position - |buf|, |buf|) == buf
  {
    var w := WriteEffect(files, p, mode, pos, buf, now);
    var data := w.files[p].bytes;
    var start := w.position - |buf|;
    var r := ReadBytes(data, start, |buf|);
    assert |r| == |buf|;
    forall i | 0 <= i < |buf| ensures r[i] == buf[i] {
      assert data[start..w.position][i] == data[start + i];
    }
  }

  /** LLFile::remove: a file (not a directory) at p goes away. */
  function RemoveEffect(files: Files, p: Path): (r: Files)
    ensures p in files && files[p].kind != Directory ==> p !in r
    ensures forall q :: q in r <==> q in files && (q != p || files[p].kind == Directory)
    ensures forall q :: q in r ==> r[q] == files[q]
  {
    if p in files && files[p].kind != Directory then files - {p} else files
  }

  /**
   * renameFile: remove the destination, then move the source onto it when
   * the source exists and the destination is free.
   */
  function RenameEffect(files: Files, from: Path, to: Path): (r: Files)
    ensures IsDirectory(files, to) ==> r == files
    ensures forall q :: q != from && q != to ==> (q in r <==> q in files) && (q in files ==> r[q] == files[q])
    ensures to in r ==> (IsDirectory(files, to) && r[to] == files[to]) || (from != to && from in files && r[to] == files[from])
    ensures from in r ==> from in files && r[from] == files[from] && IsDirectory(files, to)
  {
    var cleared := RemoveEffect(files, to);
    if from in cleared && to !in cleared then (cleared - {from})[to := cleared[from]] else cleared
  }

  /** Renaming an existing file onto a path that is not a directory moves it there and touches nothing else. */
  lemma RenameMovesFile(files: Files, from: Path, to: Path)
    requires from != to && from in files && !IsDirectory(files, to)
    ensures var r := RenameEffect(files, from, to);
      && to in r && r[to] == files[from] && from !in r
      && forall q :: q != from && q != to ==> (q in r <==> q in files) && (q in r ==> r[q] == files[q])
  {
  }

  /** The destination is removed first, so renaming a file onto its own path deletes it. */
  lemma RenameOntoItselfDeletes(files: Files, p: Path)
    requires p in files && files[p].kind != Directory
    ensures p !in RenameEffect(files, p, p)
    ensures RenameEffect(files, p, p) == files - {p}
  {
  }

  /** When the source is missing the move fails, but the destination has already been removed. */
  lemma RenameMissingSourceClearsDestination(files: Files, from: Path, to: Path)
    requires from !in files
    ensures RenameEffect(files, from, to) == RemoveEffect(files, to)
  {
  }

  /** A handle on the cache file of one asset. */
  class FileSystem {
    const cache: DiskCache
    var fileID: string
    var fileType: AssetType
    var position: nat
    var bytesRead: nat
    const mode: int

    constructor (cache: DiskCache, fileID: string, fileType: AssetType, mode: int)
      ensures this.cache == cache && this.fileID == fileID && this.fileType == fileType && this.mode == mode
      ensures position == 0 && bytesRead == 0
    {
      this.cache := cache;
      this.fileID := fileID;
      this.fileType := fileType;
      this.mode := mode;
      position := 0;
      bytesRead := 0;
    }

    /** The cache file this handle names. */
    function Filename(): Path
      reads this
    {
      MetaDataToFilepath(cache.layout, fileID, fileType, "")
    }

    /** True iff the asset's path is a non-empty regular file. */
    static method GetExists(cache: DiskCache, fileID: string, fileType: AssetType) returns (found: bool)
      ensures var p := MetaDataToFilepath(cache.layout, fileID, fileType, "");
        found <==> IsRegularFile(cache.disk.files, p) && |cache.disk.files[p].bytes| > 0
    {
      var p := MetaDataToFilepath(cache.layout, fileID, fileType, "");
      found := false;
      if p in cache.disk.files {
        var entry := cache.disk.files[p];
        found := entry.kind == Regular && |entry.bytes| > 0;
      }
    }

    /** The size `stat` reports for the asset's path, 0 when nothing is there. */
    static method GetFileSize(cache: DiskCache, fileID: string, fileType: AssetType) returns (size: nat)
      ensures var p := MetaDataToFilepath(cache.layout, fileID, fileType, "");
        (p !in cache.disk.files ==> size == 0) && (p in cache.disk.files ==> size == |cache.disk.files[p].bytes|)
    {
      var p := MetaDataToFilepath(cache.layout, fileID, fileType, "");
      size := 0;
      if p in cache.disk.files {
        size := |cache.disk.files[p].bytes|;
      }
    }

    /** Removes the asset's file; always reports success. */
    static method RemoveFile(cache: DiskCache, fileID: string, fileType: AssetType) returns (ok: bool)
      modifies cache.disk
      ensures ok
      ensures cache.disk.files == RemoveEffect(old(cache.disk.files), MetaDataToFilepath(cache.layout, fileID, fileType, ""))
    {
      var p := MetaDataToFilepath(cache.layout, fileID, fileType, "");
      if p in cache.disk.files && cache.disk.files[p].kind != Directory {
        cache.disk.files := cache.disk.files - {p};
      }
      ok := true;
    }

    /** Removes the destination, then moves the old file onto it; always reports success. */
    static method RenameFile(cache: DiskCache, oldID: string, oldType: AssetType, newID: string, newType: AssetType)
      returns (ok: bool)
      modifies cache.disk
      ensures ok
      ensures cache.disk.files == RenameEffect(old(cache.disk.files),
        MetaDataToFilepath(cache.layout, oldID, oldType, ""), MetaDataToFilepath(cache.layout, newID, newType, ""))
    {
      var from := MetaDataToFilepath(cache.layout, oldID, oldType, "");
      var to := MetaDataToFilepath(cache.layout, newID, newType, "");
      var _ := RemoveFile(cache, newID, newType);
      if from in cache.disk.files && to !in cache.disk.files {
        var entry := cache.disk.files[from];
        cache.disk.files := (cache.disk.files - {from})[to := entry];
      }
      ok := true;
    }

    /**
     * Reads up to `count` bytes at the position. When the file opens, the
     * position advances by the bytes read, which are also the new
     * last-bytes-read, and success is cleared only when none came back.
     * Either way the file's access time becomes `now`.
     */
    method Read(count: nat, now: int) returns (ok: bool, data: seq<byte>)
      modifies this`position, this`bytesRead, cache.disk
      ensures var p := Filename(); var files := old(cache.disk.files);
        && cache.disk.files == Touch(files, p, now)
        && if IsRegularFile(files, p) then
          && data == ReadBytes(files[p].bytes, old(position), count)
          && bytesRead == |data|
          && position == old(position) + |data|
          && ok == (|data| != 0)
        else
          ok && data == [] && position == old(position) && bytesRead == old(bytesRead)
    {
      var p := MetaDataToFilepath(cache.layout, fileID, fileType, "");
      ok := true;
      data := [];
      if p in cache.disk.files && cache.disk.files[p].kind == Regular {
        data := ReadBytes(cache.disk.files[p].bytes, position, count);
        bytesRead := |data|;
        position := position + bytesRead;
        if bytesRead == 0 {
          ok := false;
        }
      }
      cache.UpdateFileAccessTime(p, now);
    }

    method GetLastBytesRead() returns (n: nat)
      ensures n == bytesRead
    {
      n := bytesRead;
    }

    /** The size of the file this handle names, 0 when it is missing. */
    method GetSize() returns (size: nat)
      ensures size == FileSize(cache.disk.files, Filename())
    {
      size := GetFileSize(cache, fileID, fileType);
    }

    /** No limit is imposed: the largest 32-bit signed size is offered. */
    method GetMaxSize() returns (size: int)
      ensures size == 0x7fff_ffff
    {
      size := 0x7fff_ffff;
    }

    /** True iff the position is at or past the end of the file. */
    method Eof() returns (atEnd: bool)
      ensures atEnd <==> position >= FileSize(cache.disk.files, Filename())
    {
      var size := GetSize();
      atEnd := position >= size;
    }

    /** Writes buf according to the mode; on success the position is the end of the bytes just written. */
    method Write(buf: seq<byte>, now: int) returns (ok: bool)
      modifies this`position, cache.disk
      ensures WriteOutcome(ok, cache.disk.files, position)
        == WriteEffect(old(cache.disk.files), Filename(), mode, old(position), buf, now)
    {
      var p := MetaDataToFilepath(cache.layout, fileID, fileType, "");
      var files := cache.disk.files;
      ok := false;
      if mode == ModeAppend {
        if p !in files || files[p].kind == Regular {
          var data := (if p in files then files[p].bytes else []) + buf;
          if buf != [] || p !in files {
            cache.disk.files := files[p := Entry(Regular, data, now)];
          }
          position := |data|;
          ok := true;
        }
      } else if mode == ModeReadWrite {
        if p in files && files[p].kind == Regular {
          if buf != [] {
            cache.disk.files := files[p := Entry(Regular, Overwrite(files[p].bytes, position, buf), now)];
          }
          position := position + |buf|;
          ok := true;
        } else if p !in files {
          cache.disk.files := files[p := Entry(Regular, buf, now)];
          position := |buf|;
          ok := true;
        }
      } else {
        if p !in files || files[p].kind == Regular {
          cache.disk.files := files[p := Entry(Regular, buf, now)];
          position := |buf|;
          ok := true;
        }
      }
    }

    /**
     * Moves the position to origin + offset, origin -1 standing for the
     * current position, clamped to [0, size]; reports false when it clamped.
     */
    method Seek(offset: int, origin: int) returns (ok: bool)
      modifies this`position
      ensures var target := (if origin == -1 then old(position) else origin) + offset;
        var size := FileSize(cache.disk.files, Filename());
        && (target > size ==> !ok && position == size)
        && (target < 0 ==> !ok && position == 0)
        && (0 <= target <= size ==> ok && position == target)
      ensures position <= FileSize(cache.disk.files, Filename())
    {
      var from := if origin == -1 then position else origin;
      var newPos := from + offset;
      var size := GetSize();
      if newPos > size {
        position := size;
        return false;
      } else if newPos < 0 {
        position := 0;
        return false;
      }
      position := newPos;
      ok := true;
    }

    method Tell() returns (pos: nat)
      ensures pos == position
    {
      pos := position;
    }

    /** Renames the file on disk and points the handle at the new id and type, whatever the rename did. */
    method Rename(newID: string, newType: AssetType) returns (ok: bool)
      modifies this`fileID, this`fileType, cache.disk
      ensures ok && fileID == newID && fileType == newType
      ensures cache.disk.files == RenameEffect(old(cache.disk.files), old(Filename()),
        MetaDataToFilepath(cache.layout, newID, newType, ""))
    {
      var _ := RenameFile(cache, fileID, fileType, newID, newType);
      fileID := newID;
      fileType := newType;
      ok := true;
    }

    /** Removes the file this handle names; always reports success. */
    method Remove() returns (ok: bool)
      modifies cache.disk
      ensures ok
      ensures cache.disk.files == RemoveEffect(old(cache.disk.files), Filename())
    {
      ok := RemoveFile(cache, fileID, fileType);
    }
  }
}
