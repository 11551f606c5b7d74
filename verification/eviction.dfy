/**
 * The eviction rule of the disk cache's purge, on the list of candidate
 * files it builds: sort newest first, walk the list keeping a running size
 * total, and delete every file at which that total exceeds the limit.
 */
module Eviction {
  import opened FileStore

  /** One collected candidate: last-write time, size and path. */
  datatype FileInfo = FileInfo(time: int, size: nat, path: Path)

  /** Non-increasing last-write time: newest first. */
  predicate NewestFirst(s: seq<FileInfo>) {
    forall i, j :: 0 <= i < j < |s| ==> s[i].time >= s[j].time
  }

  /** No path occurs twice. */
  predicate DistinctPaths(s: seq<FileInfo>) {
    forall i, j :: 0 <= i < j < |s| ==> s[i].path != s[j].path
  }

  function PathsOf(s: seq<FileInfo>): set<Path> {
    set i | 0 <= i < |s| :: s[i].path
  }

  lemma PathsCons(a: FileInfo, t: seq<FileInfo>)
    ensures PathsOf([a] + t) == {a.path} + PathsOf(t)
  {
    var s := [a] + t;
    forall p | p in PathsOf(s) ensures p in {a.path} + PathsOf(t) {
      var i :| 0 <= i < |s| && s[i].path == p;
      if i > 0 { assert t[i - 1] == s[i]; }
    }
    forall p | p in PathsOf(t) ensures p in PathsOf(s) {
      var i :| 0 <= i < |t| && t[i].path == p;
      assert s[i + 1] == t[i];
    }
    assert s[0] == a;
  }

  lemma DistinctCons(a: FileInfo, t: seq<FileInfo>)
    requires DistinctPaths(t) && a.path !in PathsOf(t)
    ensures DistinctPaths([a] + t)
  {
    var s := [a] + t;
    forall i, j | 0 <= i < j < |s| ensures s[i].path != s[j].path {
      assert s[j] == t[j - 1];
      if i > 0 { assert s[i] == t[i - 1]; }
    }
  }

  /** Inserts x in front of the first element that is not newer than it. */
  function InsertNewestFirst(x: FileInfo, s: seq<FileInfo>): (r: seq<FileInfo>)
    requires NewestFirst(s)
    ensures NewestFirst(r)
    ensures |r| == |s| + 1 && (r[0] == x || (s != [] && r[0] == s[0]))
  {
    if s == [] || s[0].time <= x.time then
      [x] + s
    else
      var rest := InsertNewestFirst(x, s[1..]);
      assert s == [s[0]] + s[1..];
      assert rest[0].time <= s[0].time;
      assert forall k :: 0 <= k < |rest| ==> rest[k].time <= rest[0].time;
      [s[0]] + rest
  }

  /** Insertion adds exactly x: the result is a permutation of x and s. */
  lemma {:induction false} InsertKeepsMultiset(x: FileInfo, s: seq<FileInfo>)
    requires NewestFirst(s)
    ensures multiset(InsertNewestFirst(x, s)) == multiset(s) + multiset{x}
    decreases |s|
  {
    if s != [] && s[0].time > x.time {
      assert s == [s[0]] + s[1..];
      InsertKeepsMultiset(x, s[1..]);
    }
  }

  lemma DistinctTail(s: seq<FileInfo>)
    requires s != [] && DistinctPaths(s)
    ensures DistinctPaths(s[1..]) && s[0].path !in PathsOf(s[1..])
  {
    var t := s[1..];
    forall i, j | 0 <= i < j < |t| ensures t[i].path != t[j].path {
      assert t[i] == s[i + 1] && t[j] == s[j + 1];
    }
    forall i | 0 <= i < |t| ensures t[i].path != s[0].path {
      assert t[i] == s[i + 1];
    }
  }

  lemma {:induction false} InsertKeepsPaths(x: FileInfo, s: seq<FileInfo>)
    requires NewestFirst(s)
    ensures PathsOf(InsertNewestFirst(x, s)) == PathsOf(s) + {x.path}
    decreases |s|
  {
    if s == [] || s[0].time <= x.time {
      PathsCons(x, s);
    } else {
      var t := s[1..];
      var rest := InsertNewestFirst(x, t);
      assert InsertNewestFirst(x, s) == [s[0]] + rest;
      InsertKeepsPaths(x, t);
      PathsCons(s[0], rest);
      assert s == [s[0]] + t;
      PathsCons(s[0], t);
    }
  }

  lemma {:induction false} InsertKeepsDistinct(x: FileInfo, s: seq<FileInfo>)
    requires NewestFirst(s) && DistinctPaths(s) && x.path !in PathsOf(s)
    ensures DistinctPaths(InsertNewestFirst(x, s))
    decreases |s|
  {
    if s == [] || s[0].time <= x.time {
      DistinctCons(x, s);
    } else {
      var t := s[1..];
      var rest := InsertNewestFirst(x, t);
      assert InsertNewestFirst(x, s) == [s[0]] + rest;
      assert s == [s[0]] + t;
      PathsCons(s[0], t);
      DistinctTail(s);
      InsertKeepsDistinct(x, t);
      InsertKeepsPaths(x, t);
      DistinctCons(s[0], rest);
    }
  }

  /**
   * A stand-in for `std::sort` with the newest-first comparator: any order it
   * yields is a newest-first permutation of its input.
   */
  function SortNewestFirst(s: seq<FileInfo>): (r: seq<FileInfo>)
    ensures NewestFirst(r)
    ensures multiset(r) == multiset(s)
  {
    if s == [] then []
    else
      assert s == [s[0]] + s[1..];
      InsertKeepsMultiset(s[0], SortNewestFirst(s[1..]));
      InsertNewestFirst(s[0], SortNewestFirst(s[1..]))
  }

  /** Sorting keeps the set of paths, and keeps them distinct. */
  lemma {:induction false} SortKeepsPaths(s: seq<FileInfo>)
    ensures PathsOf(SortNewestFirst(s)) == PathsOf(s)
    ensures DistinctPaths(s) ==> DistinctPaths(SortNewestFirst(s))
  {
    if s != [] {
      var t := s[1..];
      var sorted := SortNewestFirst(t);
      assert SortNewestFirst(s) == InsertNewestFirst(s[0], sorted);
      assert s == [s[0]] + t;
      PathsCons(s[0], t);
      SortKeepsPaths(t);
      InsertKeepsPaths(s[0], sorted);
      if DistinctPaths(s) {
        DistinctTail(s);
        InsertKeepsDistinct(s[0], sorted);
      }
    }
  }

  /** The sum of the sizes in s. */
  function Total(s: seq<FileInfo>): nat {
    if s == [] then 0 else s[0].size + Total(s[1..])
  }

  lemma {:induction false} TotalAppend(a: seq<FileInfo>, b: seq<FileInfo>)
    ensures Total(a + b) == Total(a) + Total(b)
  {
    if a == [] {
      assert a + b == b;
    } else {
      assert (a + b)[0] == a[0];
      assert (a + b)[1..] == a[1..] + b;
      TotalAppend(a[1..], b);
      assert Total(a + b) == a[0].size + Total(a[1..] + b);
    }
  }

  /** The running total after visiting s[i]: the source's `file_size_total`. */
  function RunningTotal(s: seq<FileInfo>, i: nat): nat
    requires i < |s|
  {
    Total(s[..i + 1])
  }

  lemma RunningTotalStep(s: seq<FileInfo>, i: nat)
    requires i < |s|
    ensures RunningTotal(s, i) == Total(s[..i]) + s[i].size
  {
    assert s[..i + 1] == s[..i] + [s[i]];
    TotalAppend(s[..i], [s[i]]);
  }

  /** The paths purge deletes: those at which the running total exceeds max. */
  function Deleted(s: seq<FileInfo>, max: nat): (r: set<Path>)
    ensures r <= PathsOf(s)
    ensures Total(s) <= max ==> r == {}
    ensures s != [] && s[0].size > max ==> s[0].path in r
  {
    RunningTotalAtMostTotal(s);
    assert s != [] ==> s[..1] == [s[0]];
    set i | 0 <= i < |s| && RunningTotal(s, i) > max :: s[i].path
  }

  /** The paths deleted among the first i visited. */
  function DeletedBefore(s: seq<FileInfo>, i: nat, max: nat): set<Path>
    requires i <= |s|
  {
    set j | 0 <= j < i && RunningTotal(s, j) > max :: s[j].path
  }

  lemma DeletedBeforeStep(s: seq<FileInfo>, i: nat, max: nat)
    requires i < |s|
    ensures DeletedBefore(s, i + 1, max)
      == DeletedBefore(s, i, max) + (if RunningTotal(s, i) > max then {s[i].path} else {})
  {
  }

  lemma DeletedBeforeAll(s: seq<FileInfo>, max: nat)
    ensures DeletedBefore(s, |s|, max) == Deleted(s, max)
  {
  }

  /** The length of the longest prefix of s whose sizes fit in max. */
  function KeepCount(s: seq<FileInfo>, max: nat): (r: nat)
    ensures r <= |s|
    ensures r == |s| <==> Total(s) <= max
    decreases |s|
  {
    if s == [] || s[0].size > max then 0 else 1 + KeepCount(s[1..], max - s[0].size)
  }

  /** Dropping the first entry lowers every later running total by its size. */
  lemma RunningTotalTail(s: seq<FileInfo>, i: nat)
    requires 0 < i < |s|
    ensures RunningTotal(s, i) == s[0].size + RunningTotal(s[1..], i - 1)
  {
    assert s[..i + 1][0] == s[0];
    assert s[..i + 1][1..] == s[1..][..i];
  }

  /**
   * The purge rule keeps exactly a prefix: s[i] is deleted iff i is at or
   * past KeepCount, and the kept prefix fits in max.
   */
  lemma {:induction false} KeptPrefix(s: seq<FileInfo>, max: nat)
    ensures KeepCount(s, max) <= |s|
    ensures Total(s[..KeepCount(s, max)]) <= max
    ensures forall i :: 0 <= i < |s| ==> (RunningTotal(s, i) > max <==> i >= KeepCount(s, max))
    decreases |s|
  {
    if s == [] {
    } else if s[0].size > max {
      forall i | 0 <= i < |s| ensures RunningTotal(s, i) > max {
        assert s[..i + 1][0] == s[0];
      }
    } else {
      var t := s[1..];
      var m := max - s[0].size;
      KeptPrefix(t, m);
      var k := KeepCount(t, m);
      assert s[..k + 1][0] == s[0];
      assert s[..k + 1][1..] == t[..k];
      forall i | 0 <= i < |s| ensures RunningTotal(s, i) > max <==> i >= k + 1 {
        if i > 0 {
          RunningTotalTail(s, i);
          assert RunningTotal(t, i - 1) > m <==> i - 1 >= k;
        } else {
          assert s[..1][0] == s[0] && s[..1][1..] == [];
          assert RunningTotal(s, 0) == s[0].size + Total(s[..1][1..]);
        }
      }
    }
  }

  /** The deleted paths are those of the suffix after the kept prefix. */
  lemma DeletedIsSuffix(s: seq<FileInfo>, max: nat)
    ensures KeepCount(s, max) <= |s|
    ensures Deleted(s, max) == PathsOf(s[KeepCount(s, max)..])
  {
    KeptPrefix(s, max);
    SuffixIsDeleted(s, max);
    DeletedInSuffix(s, max);
  }

  lemma SuffixIsDeleted(s: seq<FileInfo>, max: nat)
    requires KeepCount(s, max) <= |s|
    requires forall i :: 0 <= i < |s| ==> (RunningTotal(s, i) > max <==> i >= KeepCount(s, max))
    ensures PathsOf(s[KeepCount(s, max)..]) <= Deleted(s, max)
  {
    var k := KeepCount(s, max);
    forall p | p in PathsOf(s[k..]) ensures p in Deleted(s, max) {
      var j :| 0 <= j < |s[k..]| && s[k..][j].path == p;
      assert s[k + j].path == p && RunningTotal(s, k + j) > max;
    }
  }

  lemma DeletedInSuffix(s: seq<FileInfo>, max: nat)
    requires KeepCount(s, max) <= |s|
    requires forall i :: 0 <= i < |s| ==> (RunningTotal(s, i) > max <==> i >= KeepCount(s, max))
    ensures Deleted(s, max) <= PathsOf(s[KeepCount(s, max)..])
  {
    var k := KeepCount(s, max);
    forall p | p in Deleted(s, max) ensures p in PathsOf(s[k..]) {
      var i :| 0 <= i < |s| && RunningTotal(s, i) > max && s[i].path == p;
      assert s[k..][i - k] == s[i];
    }
  }

  /** Once the running total exceeds max it stays above it: a deleted file is never followed by a kept one. */
  lemma RunningTotalMonotone(s: seq<FileInfo>, i: nat, j: nat)
    requires i <= j <= |s|
    ensures Total(s[..i]) <= Total(s[..j])
  {
    assert s[..j] == s[..i] + s[i..j];
    TotalAppend(s[..i], s[i..j]);
  }

  /** No running total exceeds the total of the whole sequence. */
  lemma RunningTotalAtMostTotal(s: seq<FileInfo>)
    ensures forall i :: 0 <= i < |s| ==> RunningTotal(s, i) <= Total(s)
  {
    forall i | 0 <= i < |s| ensures RunningTotal(s, i) <= Total(s) {
      RunningTotalMonotone(s, i + 1, |s|);
      assert s[..|s|] == s;
    }
  }
}
