# Asset disk cache, cache file handle and viewer phase stats

A Dafny model of three pieces of the Second Life viewer:

- **The asset disk cache (`LLDiskCache`).**
  - Each asset's cache file sits at `<cache dir><delimiter>sl_cache_<id>_<extra or 0>_<TYPE>.asset`.
  - `purge` collects the regular files in the cache directory whose path contains `sl_cache`, and sorts them newest first. It keeps a running size total and deletes every file at which that total exceeds the size limit.
  - `clearCache` deletes all of those files.
  - `dirFileSize` adds up their sizes.
- **The cache file handle (`LLFileSystem`).**
  - A handle holds an asset id, an asset type, an open mode, a position and the count of the last read.
  - It seeks with clamping. It reads and writes at the position, advancing it.
  - It writes in append, overwrite-in-place or truncate mode.
  - It renames and removes the file it names.
- **The viewer's stat array and phase table (`LLViewerStats`, `PhaseMap`).**
  - The stat array is zeroed at construction, except for the known-bad-timer flag.
  - The phase table maps names to timers. Stopping a running phase pushes its elapsed time into a per-name accumulator. That accumulator registry is shared by every phase table.

The file system is a map from path to entry. An entry has a kind (regular, directory, other), its bytes and its last-write time (`FileStore.Disk`), and the cache and every handle share that disk.

Files:
- `file_store.dfy`: the disk, directory listing, substring search and summed sizes.
- `eviction.dfy`: purge's eviction rule on the candidate list: newest-first sorting, running totals, and which files are deleted.
- `asset_cache.dfy`: asset type names, cache paths, and the `DiskCache` class.
- `cache_file.dfy`: the `FileSystem` handle class and the specifications of its reads, writes, removes and renames.
- `viewer_stats.dfy`: the `Stats` array class, the shared `PhaseStatsRegistry` and the `PhaseMap` class.

The purge contract in a sentence:
- `Purge` visits the cache's files in an order `IsPurgeOrder` allows: each candidate once, with its own time and size, newest first, ties in any order.
- It deletes exactly `Deleted(order, limit)`.
- `KeptPrefix`, `DeletedIsSuffix` and `PurgeBoundsDirSize` show what is left. It is the longest newest-first prefix that fits, and the cache size afterwards is at most the limit.
- `PurgeSparesOtherEntries` shows that every entry other than a cache file is untouched.

## Model

| member | source | states |
|---|---|---|
| AssetCache.AssetTypeToString | indra/llfilesystem/lldiskcache.cpp:130-175 | every type in the table has its fixed name, and a type outside the table (and AT_UNKNOWN) gets "UNKNOWN"; names are never empty |
| AssetCache.AssetTypeNameRoundTrip | indra/llfilesystem/lldiskcache.cpp:137-174 | reading a type's name back through the table gives the type; every unlisted type reads back as AT_UNKNOWN |
| AssetCache.AssetTypeNamesDistinct | indra/llfilesystem/lldiskcache.cpp:137-174 | two types share a name only when that name is "UNKNOWN" |
| AssetCache.MetaDataToFilepath | indra/llfilesystem/lldiskcache.cpp:177-195 | the path is the cache directory, the delimiter, then the prefix, '_', the id and '_'; with empty extra info "0_" follows; the path ends in ".asset" |
| AssetCache.CacheFileIsListed | indra/llfilesystem/lldiskcache.cpp:177-195 | an asset's path contains the cache prefix, and lies directly in the cache directory when the delimiter does not occur in its file name, so purge, clearCache and dirFileSize see it |
| AssetCache.CacheFileInjective | indra/llfilesystem/lldiskcache.cpp:177-195 | with empty extra info and ids without '_', equal paths mean equal ids and equal type names |
| AssetCache.Touch | indra/llfilesystem/lldiskcache.cpp:197-201 | setting a file's last-write time keeps every path, gives that file the new time with its kind and bytes unchanged, and leaves every other entry as it was |
| AssetCache.TouchKeepsCacheSize | indra/llfilesystem/lldiskcache.cpp:197-201 | updating a file's access time changes neither the set of cache files nor their total size |
| AssetCache.SortedIsPurgeOrder | indra/llfilesystem/lldiskcache.cpp:84-87 | sorting the collected files newest first gives an order that visits each cache file once, with its own time and size |
| AssetCache.PurgeSparesOtherEntries | indra/llfilesystem/lldiskcache.cpp:66-82 | purge deletes only cache files; every entry that is not a regular prefixed file in the cache directory is left as it was |
| AssetCache.PurgeBoundsDirSize | indra/llfilesystem/lldiskcache.cpp:91-105 | after purge the cache files left are the kept newest-first prefix, and their total size is at most the limit |
| AssetCache.ClearCacheEmptiesDir | indra/llfilesystem/lldiskcache.cpp:218-239 | after clearCache no cache file is left, so dirFileSize reports 0 |
| AssetCache.DiskCache.constructor | indra/llfilesystem/lldiskcache.cpp:42-52 | the prefix is "sl_cache", and the cache directory is created when nothing is at its path |
| AssetCache.DiskCache.CollectCacheFiles | indra/llfilesystem/lldiskcache.cpp:66-82 | the collected list names each regular prefixed file in the cache directory exactly once, with its last-write time and size; it is empty when the directory is missing |
| AssetCache.DiskCache.Purge | indra/llfilesystem/lldiskcache.cpp:54-128 | the files are visited in a newest-first purge order, and exactly those at which the running total exceeds the limit are deleted |
| AssetCache.DiskCache.DeleteOverLimit | indra/llfilesystem/lldiskcache.cpp:91-105 | walking the sorted list with a running total deletes exactly the files at which the total exceeds the limit |
| AssetCache.DiskCache.UpdateFileAccessTime | indra/llfilesystem/lldiskcache.cpp:197-201 | the file's last-write time becomes now and nothing else changes |
| AssetCache.DiskCache.ClearCache | indra/llfilesystem/lldiskcache.cpp:218-239 | exactly the regular prefixed files in the cache directory are removed; nothing is removed when it is not a directory |
| AssetCache.DiskCache.DirFileSize | indra/llfilesystem/lldiskcache.cpp:241-269 | the result is the total size of the regular prefixed files in dir, and 0 when dir is not a directory |
| Eviction.InsertNewestFirst | indra/llfilesystem/lldiskcache.cpp:84-87 | inserting into a newest-first list keeps it newest first, makes it one longer, and puts either the new element or the old head first |
| Eviction.InsertKeepsMultiset | indra/llfilesystem/lldiskcache.cpp:84-87 | insertion adds exactly the inserted element: the result is a permutation of it and the list |
| Eviction.SortNewestFirst | indra/llfilesystem/lldiskcache.cpp:84-87 | the sorted list is newest first and a permutation of its input |
| Eviction.SortKeepsPaths | indra/llfilesystem/lldiskcache.cpp:84-87 | sorting keeps the set of paths and keeps them distinct |
| Eviction.RunningTotalStep | indra/llfilesystem/lldiskcache.cpp:91-94 | the running total at a file is the total before it plus its size |
| Eviction.RunningTotalMonotone | indra/llfilesystem/lldiskcache.cpp:91-94 | the running total never decreases along the visiting order |
| Eviction.Deleted | indra/llfilesystem/lldiskcache.cpp:91-101 | only visited files are deleted; nothing is deleted when the whole list fits in the limit; the newest file is deleted when it alone exceeds the limit |
| Eviction.KeepCount | indra/llfilesystem/lldiskcache.cpp:91-101 | the number of files kept is at most the number visited, and equals it iff the whole list fits in the limit |
| Eviction.KeptPrefix | indra/llfilesystem/lldiskcache.cpp:91-105 | a file is deleted iff its index is at or past the keep count; the kept prefix fits in the limit |
| Eviction.DeletedIsSuffix | indra/llfilesystem/lldiskcache.cpp:91-105 | the deleted files are exactly the suffix after the kept prefix |
| CacheFile.ModeBits | indra/llfilesystem/llfilesystem.cpp:37-40 | READ_WRITE is READ OR WRITE, READ AND WRITE share no bit, and APPEND is bit 2 plus the WRITE bit |
| CacheFile.ReadSpan | indra/llfilesystem/llfilesystem.cpp:195-196 | a read gets at most the bytes asked for, never past the end, and fewer only when it reaches the end |
| CacheFile.ReadBytes | indra/llfilesystem/llfilesystem.cpp:195-196 | the bytes read are the file's bytes starting at the position |
| CacheFile.Overwrite | indra/llfilesystem/llfilesystem.cpp:298-305 | writing no bytes leaves the file as it was; writing some bytes at a position puts them there, keeps the bytes before and after them, zero-fills a gap past the old end, and never truncates |
| CacheFile.WriteEffect | indra/llfilesystem/llfilesystem.cpp:285-329 | a write succeeds iff the path is free or a regular file; on failure nothing changes; on success a non-empty buffer ends at the new position, which is within the file; writing no bytes in append or read-write mode into an existing file leaves it and its time as they were, and otherwise the file's time is now; other paths never change |
| CacheFile.EmptyWritePastEnd | indra/llfilesystem/llfilesystem.cpp:296-305 | writing no bytes through a read-write handle positioned past the end of a 2-byte file keeps the file's bytes and time and leaves the position past its end |
| CacheFile.WriteAppends | indra/llfilesystem/llfilesystem.cpp:285-295 | append mode leaves old contents followed by the buffer, with the position at the new end |
| CacheFile.WriteOverwritesInPlace | indra/llfilesystem/llfilesystem.cpp:296-318 | read-write mode overwrites an existing file at the position without truncating it, and creates a missing file holding just the buffer |
| CacheFile.WriteTruncates | indra/llfilesystem/llfilesystem.cpp:319-329 | every other mode leaves the file holding just the buffer, with the position at its end |
| CacheFile.WriteThenReadBack | indra/llfilesystem/llfilesystem.cpp:192-196 | after a successful write, reading the buffer's length back from where it starts returns the buffer |
| CacheFile.RemoveEffect | indra/llfilesystem/llfilesystem.cpp:85-99 | removing deletes a file at the path, leaves a directory, and changes no other path |
| CacheFile.RenameEffect | indra/llfilesystem/llfilesystem.cpp:114-129 | a directory at the destination stops the rename and nothing changes; paths other than the source and destination never change; whatever ends at the destination is the directory that was there or the source's entry; the source survives only when a directory is at the destination |
| CacheFile.RenameMovesFile | indra/llfilesystem/llfilesystem.cpp:102-130 | renaming an existing file onto another path that is not a directory moves it there and changes nothing else |
| CacheFile.RenameOntoItselfDeletes | indra/llfilesystem/llfilesystem.cpp:114-120 | because the destination is removed first, renaming a file onto its own path deletes it |
| CacheFile.RenameMissingSourceClearsDestination | indra/llfilesystem/llfilesystem.cpp:114-129 | when the source is missing the move fails but the destination has still been removed |
| CacheFile.FileSystem.constructor | indra/llfilesystem/llfilesystem.cpp:44-51 | a new handle has position 0, last-bytes-read 0 and the given id, type and mode |
| CacheFile.FileSystem.GetExists | indra/llfilesystem/llfilesystem.cpp:58-80 | true iff the asset's path is a regular file of size greater than 0 |
| CacheFile.FileSystem.GetFileSize | indra/llfilesystem/llfilesystem.cpp:133-156 | the size of the entry at the asset's path, and 0 when nothing is there |
| CacheFile.FileSystem.RemoveFile | indra/llfilesystem/llfilesystem.cpp:85-99 | removes the asset's file and always reports success |
| CacheFile.FileSystem.RenameFile | indra/llfilesystem/llfilesystem.cpp:102-130 | removes the destination, moves the source onto it if the source exists and the destination is free, and always reports success |
| CacheFile.FileSystem.Read | indra/llfilesystem/llfilesystem.cpp:158-214 | when the file opens: the bytes at the position, as many as exist up to the count; last-bytes-read and the position advance by that many; failure only on zero bytes. Otherwise success with nothing moved. The access time is updated either way |
| CacheFile.FileSystem.GetLastBytesRead | indra/llfilesystem/llfilesystem.cpp:216-219 | the count of the last read |
| CacheFile.FileSystem.GetSize | indra/llfilesystem/llfilesystem.cpp:370-373 | the size of the file the handle names |
| CacheFile.FileSystem.GetMaxSize | indra/llfilesystem/llfilesystem.cpp:375-379 | the largest 32-bit signed value |
| CacheFile.FileSystem.Eof | indra/llfilesystem/llfilesystem.cpp:221-224 | true iff the position is at or past the file's size |
| CacheFile.FileSystem.Write | indra/llfilesystem/llfilesystem.cpp:226-333 | the success, new disk and new position are those of WriteEffect for the handle's mode and position |
| CacheFile.FileSystem.Seek | indra/llfilesystem/llfilesystem.cpp:335-363 | origin -1 means the current position; a target past the size clamps to the size, one below 0 clamps to 0, both reporting false; otherwise the position is the target; so 0 <= position <= size afterwards |
| CacheFile.FileSystem.Tell | indra/llfilesystem/llfilesystem.cpp:365-368 | the current position |
| CacheFile.FileSystem.Rename | indra/llfilesystem/llfilesystem.cpp:381-389 | renames the file on disk, and points the handle at the new id and type whatever the rename did; reports success |
| CacheFile.FileSystem.Remove | indra/llfilesystem/llfilesystem.cpp:391-396 | removes the handle's file and reports success |
| ViewerStats.Stats.constructor | indra/newview/llviewerstats.cpp:257-265 | every stat is 0, except the bad-timer stat, which is 1 when the timer is known bad |
| ViewerStats.Stats.GetStat | indra/newview/llviewerstats.cpp:289-292 | the value stored at the index |
| ViewerStats.Stats.SetStat | indra/newview/llviewerstats.cpp:294-298 | stores the value at the index and returns it; every other stat is unchanged |
| ViewerStats.Record | indra/newview/llviewerstats.cpp:795-799 | exactly one value is pushed onto the named accumulator, which is created when absent; other accumulators are unchanged |
| ViewerStats.PhaseStatsRegistry.constructor | indra/newview/llviewerstats.cpp:776 | the shared registry starts with no accumulators |
| ViewerStats.PhaseStatsRegistry.GetPhaseStats | indra/newview/llviewerstats.cpp:783-792 | returns the named accumulator, inserting an empty one only when it is absent |
| ViewerStats.PhaseStatsRegistry.RecordPhaseStat | indra/newview/llviewerstats.cpp:795-799 | the registry afterwards is Record of the old one: one more value for that name |
| ViewerStats.PauseAll | indra/newview/llviewerstats.cpp:739-753 | stopping the named phases pauses exactly those timers and keeps the set of names |
| ViewerStats.RecordAll | indra/newview/llviewerstats.cpp:739-753 | stopping the named phases creates accumulators only for the running ones among them |
| ViewerStats.RecordAllCounts | indra/newview/llviewerstats.cpp:739-753 | stopping all phases adds exactly one value to the accumulator of each running phase and none elsewhere |
| ViewerStats.RecordAllStep | indra/newview/llviewerstats.cpp:741-751 | stopping one more phase records its elapsed time iff its timer was running |
| ViewerStats.RecordNone | indra/newview/llviewerstats.cpp:739-753 | stopping no phase records nothing |
| ViewerStats.PauseAllStep | indra/newview/llviewerstats.cpp:741-751 | pausing one more phase after a set of others equals pausing them together |
| ViewerStats.StopAllTwiceRecordsOnce | indra/newview/llviewerstats.cpp:739-753 | after all phases are stopped every timer is paused, and stopping them all again records nothing and changes nothing |
| ViewerStats.PhaseMap.constructor | indra/newview/llviewerstats.cpp:778-780 | a new phase table is empty and uses the shared registry |
| ViewerStats.PhaseMap.GetPhaseTimer | indra/newview/llviewerstats.cpp:701-711 | an existing timer is returned untouched; a fresh running timer is inserted only when the name is absent; the names grow by at most that one |
| ViewerStats.PhaseMap.StartPhase | indra/newview/llviewerstats.cpp:713-718 | the named timer, inserted fresh if absent, is running; nothing else changes |
| ViewerStats.PhaseMap.StopPhase | indra/newview/llviewerstats.cpp:720-737 | an unknown name changes nothing; otherwise the elapsed time is recorded iff the timer was running, and the timer is left paused |
| ViewerStats.PhaseMap.StopAllPhases | indra/newview/llviewerstats.cpp:739-753 | every timer ends paused, the names are unchanged, and each running timer has recorded its elapsed time once |
| ViewerStats.PhaseMap.ClearPhases | indra/newview/llviewerstats.cpp:755-760 | the timer table is empty and the shared accumulators are unchanged |
| ViewerStats.PhaseMap.AsLLSD | indra/newview/llviewerstats.cpp:762-772 | one report per phase: completed is 1 iff its timer is not running, with its elapsed time |

## Left out

- indra/llcommon/llcond.h is not part of this model. Its subject is blocking and wake-up across threads and fibers, which a sequential model cannot express.
- Real file I/O is replaced by the map in `FileStore`. This covers `fopen`/`fread`/`fwrite`/`fseek`/`ftell`, `stat` and the boost::filesystem calls. Short writes, I/O errors and permissions are not modelled. Opening for writing ("a+b", "wb") succeeds when the path is free or holds a regular file. Opening with "rb" or "r+b" succeeds only on a regular file, so it fails on a free path.
- CacheFile.WriteEffect: after a write of no bytes in append mode into an existing file, the position is taken to be the end of the file. C leaves the position of a fresh "a+" stream implementation-defined until something is written; glibc's `ftell` then reports 0.
- CacheFile.RemoveEffect: `LLFile::remove` is taken to leave a directory in place. llfile.cpp is not part of this model; POSIX `remove` would delete an empty directory.
- CacheFile.FileSystem.Read: opening for reading succeeds only for a regular file in the model. What the platform does with a directory or a device node is not modelled.
- AssetCache.DiskCache.UpdateFileAccessTime: on a missing file boost::filesystem throws. The model leaves the disk unchanged instead, so a read of a missing file reports success with no bytes, as the read itself does before the access-time update.
- The clock is a parameter (`now`). The disk cache's constructor, writes and the access-time update take it. A write through a handle sets the file's last-write time to `now` when it writes bytes, creates the file or truncates it. A write of no bytes in append or read-write mode into an existing file leaves its time as it was.
- AssetCache.DiskCache.constructor: when something other than a directory sits at the cache path, boost::filesystem throws. The model leaves it in place instead.
- FileStore.Listing: boost's `directory_iterator` is taken to yield exactly the paths in the map of the form dir, delimiter, then a non-empty name with no delimiter in it. Symbolic links and iteration errors are not modelled.
- Directory listing order is not modelled: the collect, clear and size loops take entries in any order. `std::sort` is specified by what it guarantees, newest first and a permutation, and `SortNewestFirst` is one such sort. `Purge` is proved for whichever order it produced.
- The directory delimiter is a parameter of the layout, not the platform's constant. LLDir and the delimiter it reports are not part of this model.
- AssetCache.DiskCache.Purge: the limit is a natural number. The comparison of an unsigned running total with a signed `int` limit is not modelled, so a negative limit (which converts to a huge unsigned value) is not covered.
- Purge's timing and debug logging, the "Purging cache" log line, and `getCacheInfo` with its float percentages are left out. They are output only.
- Sizes and positions are unbounded naturals. The 32-bit `S32` widths of positions, counts and file sizes, and the `uintmax_t` totals, are not modelled, so overflow is not covered.
- UUIDs and asset types: an id is its text, and LLAssetType is the list of types the cache names plus `Unlisted` for any other value. llassettype.h is not part of this model.
- ViewerStats.FreshTimer: a default-constructed LLFrameTimer is taken to be running with nothing elapsed, so `GetPhaseTimer` inserts a running timer. This is an assumption about LLFrameTimer's constructor, which is not part of this model.
- ViewerStats: the timer is a running flag plus the elapsed time it reports. How the frame clock advances the elapsed time is not modelled; llframetimer.h is not part of this model. Stat values are reals with no arithmetic on them.
- ViewerStats.PhaseStatsRegistry: an accumulator is the sequence of values pushed into it. The count, sum, minimum and maximum it keeps are functions of that sequence and are not modelled.
- ViewerStats.Stats: the number of stats and the index of the bad-timer stat are constructor parameters. llviewerstats.h, which defines them, is not part of this model. `LLTimer::knownBadTimer()` is a boolean parameter.
- ViewerStats.PhaseMap.StopAllPhases and AsLLSD visit the phases in any order, not in the map's key order. Each phase is stopped independently, so the result is the same.
- `incStat`, `updateFrameStats`, `update_statistics`, `send_stats`, `addToMessage` and the HTTP responder are left out. They are float averaging, global state and network messages.
- lldrawpoolmirror, lltelemetry, lltoolpie.h and llstatbar.h are not part of this model. They are rendering, external telemetry calls and UI declarations.
