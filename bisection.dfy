/**
 * Bisection strategy (chompie/src/strategies/bisection.rs): for each file,
 * cut its non-blank lines into halves, then quarters, eighths, ... down to
 * single lines, and offer every piece of every level in turn.
 */
module Bisection {
  import opened Arith
  import opened Files
  import opened ChompRanges

  datatype BisectionStrategy = BisectionStrategy

  /**
   * The pieces of one level: consecutive runs of `size` entries of nb
   * from entry `start` on, the last run possibly shorter.
   */
  function Chunks(file: string, nb: seq<nat>, size: pos, start: nat): seq<ChompRange>
    requires start <= |nb|
    decreases |nb| - start
  {
    if start == |nb| then []
    else
      var end := Min(start + size, |nb|);
      [Span(file, nb, start, end)] + Chunks(file, nb, size, end)
  }

  /** The levels of piece size `size`, size / 2, ..., 1. */
  function Levels(file: string, nb: seq<nat>, size: nat): seq<ChompRange>
    decreases size
  {
    if size == 0 then [] else Chunks(file, nb, size, 0) + Levels(file, nb, size / 2)
  }

  /** A file of c non-blank lines starts at pieces of c / 2 lines (none when c < 2). */
  function FileRanges(file: string, nb: seq<nat>): seq<ChompRange>
  {
    Levels(file, nb, |nb| / 2)
  }

  function Ranges(files: seq<FileState>): seq<ChompRange>
    reads files
  {
    if files == [] then []
    else
      var f := files[|files| - 1];
      Ranges(files[..|files| - 1]) + FileRanges(f.path, f.NonBlankLineIndices())
  }

  lemma RangesStep(files: seq<FileState>, k: nat)
    requires k < |files|
    ensures Ranges(files[..k + 1]) ==
      Ranges(files[..k]) + FileRanges(files[k].path, files[k].NonBlankLineIndices())
  {
    assert files[..k + 1][..k] == files[..k];
  }

  method GenerateRanges(s: BisectionStrategy, files: seq<FileState>) returns (ranges: seq<ChompRange>)
    ensures ranges == Ranges(files)
  {
    ranges := [];
    var k := 0;
    while k < |files|
      invariant 0 <= k <= |files|
      invariant ranges == Ranges(files[..k])
    {
      RangesStep(files, k);
      var nb := files[k].NonBlankLineIndices();
      if |nb| != 0 {
        var mine := FileBisection(files[k].path, nb);
        ranges := ranges + mine;
      }
      k := k + 1;
    }
    assert files[..k] == files;
  }

  /** The halving loop over one file. */
  method FileBisection(file: string, nb: seq<nat>) returns (rs: seq<ChompRange>)
    ensures rs == FileRanges(file, nb)
  {
    var count := |nb|;
    var rangeSize: nat := count / 2;
    rs := [];
    while rangeSize > 0
      invariant rs + Levels(file, nb, rangeSize) == FileRanges(file, nb)
    {
      var level := LevelPieces(file, nb, rangeSize);
      assert Levels(file, nb, rangeSize) == level + Levels(file, nb, rangeSize / 2);
      assert rs + (level + Levels(file, nb, rangeSize / 2)) == (rs + level) + Levels(file, nb, rangeSize / 2);
      rs := rs + level;
      rangeSize := rangeSize / 2;
    }
    assert rs + Levels(file, nb, rangeSize) == rs + [];
  }

  /** The inner loop: one level's pieces, left to right. */
  method LevelPieces(file: string, nb: seq<nat>, size: pos) returns (cs: seq<ChompRange>)
    ensures cs == Chunks(file, nb, size, 0)
  {
    var count := |nb|;
    var startIdx := 0;
    cs := [];
    while startIdx < count
      invariant 0 <= startIdx <= count
      invariant cs + Chunks(file, nb, size, startIdx) == Chunks(file, nb, size, 0)
      decreases count - startIdx
    {
      var endIdx := Min(startIdx + size, count);
      var piece := ChompRange(file, nb[startIdx], nb[endIdx - 1] + 1);
      assert Chunks(file, nb, size, startIdx) == [piece] + Chunks(file, nb, size, endIdx);
      assert cs + ([piece] + Chunks(file, nb, size, endIdx)) == (cs + [piece]) + Chunks(file, nb, size, endIdx);
      cs := cs + [piece];
      startIdx := endIdx;
    }
  }

  /** Whether a range covers a physical line. */
  predicate Covers(r: ChompRange, line: nat)
  {
    r.startLine <= line < r.endLine
  }

  /** Every entry of nb from `start` on lies in some range of cs. */
  ghost predicate CoversFrom(cs: seq<ChompRange>, nb: seq<nat>, start: nat)
  {
    forall j | start <= j < |nb| :: exists k | 0 <= k < |cs| :: Covers(cs[k], nb[j])
  }

  /** The ranges of cs are ordered and pairwise disjoint. */
  ghost predicate Disjoint(cs: seq<ChompRange>)
  {
    forall k1, k2 | 0 <= k1 < k2 < |cs| :: cs[k1].endLine <= cs[k2].startLine
  }

  /** Every range of cs is non-empty and lies in [lo, total). */
  ghost predicate Within(cs: seq<ChompRange>, lo: nat, total: nat)
  {
    forall k | 0 <= k < |cs| :: lo <= cs[k].startLine < cs[k].endLine <= total
  }

  /**
   * One level partitions the non-blank lines from entry `start` on: every
   * one of them is covered by some piece, the pieces are ordered and pairwise
   * disjoint, and none reaches below nb[start] or past the end of the file.
   */
  lemma ChunksPartition(file: string, nb: seq<nat>, total: nat, size: pos, start: nat)
    requires Increasing(nb) && forall k | 0 <= k < |nb| :: nb[k] < total
    requires start <= |nb|
    ensures CoversFrom(Chunks(file, nb, size, start), nb, start)
    ensures Disjoint(Chunks(file, nb, size, start))
    ensures start < |nb| ==> Within(Chunks(file, nb, size, start), nb[start], total)
  {
    ChunksCover(file, nb, total, size, start);
    ChunksOrdered(file, nb, total, size, start);
  }

  lemma {:induction false} ChunksCover(file: string, nb: seq<nat>, total: nat, size: pos, start: nat)
    requires Increasing(nb) && forall k | 0 <= k < |nb| :: nb[k] < total
    requires start <= |nb|
    ensures CoversFrom(Chunks(file, nb, size, start), nb, start)
    decreases |nb| - start
  {
    if start < |nb| {
      var end := Min(start + size, |nb|);
      var rest := Chunks(file, nb, size, end);
      var cs := Chunks(file, nb, size, start);
      assert cs == [Span(file, nb, start, end)] + rest;
      ChunksCover(file, nb, total, size, end);
      SpanCovers(file, nb, total, start, end);
      forall j | start <= j < |nb| ensures exists k | 0 <= k < |cs| :: Covers(cs[k], nb[j]) {
        if j < end {
          assert Covers(cs[0], nb[j]);
        } else {
          var k :| 0 <= k < |rest| && Covers(rest[k], nb[j]);
          assert cs[k + 1] == rest[k];
        }
      }
    }
  }

  lemma {:induction false} ChunksBounded(file: string, nb: seq<nat>, total: nat, size: pos, start: nat)
    requires Increasing(nb) && forall k | 0 <= k < |nb| :: nb[k] < total
    requires start <= |nb|
    ensures start < |nb| ==> Within(Chunks(file, nb, size, start), nb[start], total)
    decreases |nb| - start
  {
    if start < |nb| {
      var end := Min(start + size, |nb|);
      var rest := Chunks(file, nb, size, end);
      var cs := Chunks(file, nb, size, start);
      assert cs == [Span(file, nb, start, end)] + rest;
      ChunksBounded(file, nb, total, size, end);
      SpanCovers(file, nb, total, start, end);
      forall k | 0 <= k < |cs| ensures nb[start] <= cs[k].startLine < cs[k].endLine <= total {
        if k > 0 {
          assert end < |nb|;
          assert cs[k] == rest[k - 1];
          assert nb[start] < nb[end];
        }
      }
    }
  }

  lemma {:induction false} ChunksOrdered(file: string, nb: seq<nat>, total: nat, size: pos, start: nat)
    requires Increasing(nb) && forall k | 0 <= k < |nb| :: nb[k] < total
    requires start <= |nb|
    ensures Disjoint(Chunks(file, nb, size, start))
    ensures start < |nb| ==> Within(Chunks(file, nb, size, start), nb[start], total)
    decreases |nb| - start
  {
    ChunksBounded(file, nb, total, size, start);
    if start < |nb| {
      var end := Min(start + size, |nb|);
      var rest := Chunks(file, nb, size, end);
      var cs := Chunks(file, nb, size, start);
      assert cs == [Span(file, nb, start, end)] + rest;
      ChunksOrdered(file, nb, total, size, end);
      SpanCovers(file, nb, total, start, end);
      forall k1, k2 | 0 <= k1 < k2 < |cs| ensures cs[k1].endLine <= cs[k2].startLine {
        assert end < |nb|;
        assert cs[k2] == rest[k2 - 1];
        if k1 == 0 {
          assert nb[end - 1] < nb[end];
        } else {
          assert cs[k1] == rest[k1 - 1];
        }
      }
    }
  }

  /** Pieces are of `size` entries, except the last, which may be shorter. */
  lemma {:induction false} ChunkAt(file: string, nb: seq<nat>, size: pos, start: nat, k: nat)
    requires start <= |nb|
    requires k < |Chunks(file, nb, size, start)|
    ensures start + k * size < |nb|
    ensures Chunks(file, nb, size, start)[k] ==
      Span(file, nb, start + k * size, Min(start + (k + 1) * size, |nb|))
    decreases k
  {
    if k > 0 {
      var end := Min(start + size, |nb|);
      ChunkAt(file, nb, size, end, k - 1);
      assert end == start + size;
      assert end + (k - 1) * size == start + k * size;
    }
  }

  /** A level over c entries has the ceiling of c / size pieces. */
  lemma {:induction false} ChunkCount(file: string, nb: seq<nat>, size: pos, start: nat)
    requires start <= |nb|
    ensures var n := |Chunks(file, nb, size, start)|;
      (n == 0 <==> start == |nb|) && (n > 0 ==> (n - 1) * size < |nb| - start <= n * size)
    decreases |nb| - start
  {
    if start < |nb| {
      var end := Min(start + size, |nb|);
      ChunkCount(file, nb, size, end);
      var m := |Chunks(file, nb, size, end)|;
      assert |Chunks(file, nb, size, start)| == m + 1;
      assert (m + 1) * size == m * size + size;
    }
  }

  /** Every piece is a non-blank range of its file. */
  lemma {:induction false} ChunksNonBlank(f: FileState, size: pos, start: nat)
    requires start <= |f.NonBlankLineIndices()|
    ensures AllNonBlankIn(Chunks(f.path, f.NonBlankLineIndices(), size, start), [f])
    decreases |f.NonBlankLineIndices()| - start
  {
    var nb := f.NonBlankLineIndices();
    if start < |nb| {
      var end := Min(start + size, |nb|);
      ChunksNonBlank(f, size, end);
      SpanInFile(f, start, end);
      assert f in [f];
      AllNonBlankInAppend([Span(f.path, nb, start, end)], Chunks(f.path, nb, size, end), [f], [f]);
      assert [f] + [f] == [f, f];
      assert forall g :: g in [f, f] <==> g in [f];
    }
  }

  lemma {:induction false} LevelsNonBlank(f: FileState, size: nat)
    ensures AllNonBlankIn(Levels(f.path, f.NonBlankLineIndices(), size), [f])
    decreases size
  {
    if size > 0 {
      ChunksNonBlank(f, size, 0);
      LevelsNonBlank(f, size / 2);
      AllNonBlankInAppend(Chunks(f.path, f.NonBlankLineIndices(), size, 0),
        Levels(f.path, f.NonBlankLineIndices(), size / 2), [f], [f]);
      assert forall g :: g in [f] + [f] <==> g in [f];
    }
  }

  /** Every range names a tracked file, is non-empty, fits, and starts and ends on non-blank lines. */
  lemma {:induction false} RangesNonBlank(files: seq<FileState>)
    ensures AllNonBlankIn(Ranges(files), files)
  {
    if files != [] {
      var init := files[..|files| - 1];
      var f := files[|files| - 1];
      RangesNonBlank(init);
      LevelsNonBlank(f, |f.NonBlankLineIndices()| / 2);
      AllNonBlankInAppend(Ranges(init), FileRanges(f.path, f.NonBlankLineIndices()), init, [f]);
      assert init + [f] == files;
    }
  }

  /**
   * The example of the source's test: four fresh lines give halves then
   * quarters, six ranges; a single non-blank line gives none.
   */
  lemma TestCounts(file: string)
    ensures |FileRanges(file, Iota(4))| == 6
    ensures FileRanges(file, [7]) == []
  {
    var nb := Iota(4);
    ChunkCount(file, nb, 2, 0);
    ChunkCount(file, nb, 1, 0);
    assert FileRanges(file, nb) == Chunks(file, nb, 2, 0) + Chunks(file, nb, 1, 0);
  }
}
