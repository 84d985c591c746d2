/**
 * Sliding-window strategy (chompie/src/strategies/sliding_window.rs):
 * every window of w consecutive non-blank lines of every file, or the
 * whole non-blank extent of a file that has fewer than w of them.
 */
module SlidingWindow {
  import opened Arith
  import opened Files
  import opened ChompRanges

  datatype SlidingWindowStrategy = SlidingWindowStrategy(windowSize: pos)

  /** A window size of 0 is raised to 1. */
  function New(windowSize: nat): (s: SlidingWindowStrategy)
    ensures s.windowSize == Max(windowSize, 1)
  {
    SlidingWindowStrategy(if windowSize == 0 then 1 else windowSize)
  }

  /** The ranges one file contributes, given its non-blank index list. */
  function FileRanges(file: string, nb: seq<nat>, w: pos): seq<ChompRange>
  {
    if |nb| == 0 then []
    else if |nb| < w then [Span(file, nb, 0, |nb|)]
    else Windows(file, nb, w)
  }

  /** The ranges of every entry, file by file. */
  function EntryRanges(es: seq<(string, seq<nat>)>, w: pos): seq<ChompRange>
  {
    if es == [] then []
    else EntryRanges(es[..|es| - 1], w) + FileRanges(es[|es| - 1].0, es[|es| - 1].1, w)
  }

  /** What the strategy proposes for the tracked files. */
  function Ranges(files: seq<FileState>, w: pos): seq<ChompRange>
    reads files
  {
    EntryRanges(Entries(files), w)
  }

  lemma RangesStep(es: seq<(string, seq<nat>)>, k: nat, w: pos)
    requires k < |es|
    ensures EntryRanges(es[..k + 1], w) == EntryRanges(es[..k], w) + FileRanges(es[k].0, es[k].1, w)
  {
    assert es[..k + 1][..k] == es[..k];
  }

  method GenerateRanges(s: SlidingWindowStrategy, files: seq<FileState>) returns (ranges: seq<ChompRange>)
    ensures ranges == Ranges(files, s.windowSize)
  {
    ghost var es := Entries(files);
    ranges := [];
    for k := 0 to |files|
      invariant ranges == EntryRanges(es[..k], s.windowSize)
    {
      RangesStep(es, k, s.windowSize);
      ranges := PushFileRanges(ranges, files[k].path, files[k].NonBlankLineIndices(), s.windowSize);
    }
    assert es[..|files|] == es;
  }

  /** The body of the per-file loop: push the windows of one file. */
  method PushFileRanges(ranges: seq<ChompRange>, file: string, nb: seq<nat>, w: pos)
    returns (ranges': seq<ChompRange>)
    ensures ranges' == ranges + FileRanges(file, nb, w)
  {
    ranges' := ranges;
    if |nb| != 0 {
      var count := |nb|;
      if count < w {
        ranges' := ranges' + [ChompRange(file, nb[0], nb[count - 1] + 1)];
      } else {
        ranges' := PushWindows(ranges', file, nb, w);
      }
    }
  }

  /**
   * How many ranges a file yields: none without non-blank lines, one
   * covering them all when there are fewer than w, else count - w + 1,
   * the i-th of which runs from nb[i] to nb[i + w - 1] + 1.
   */
  lemma FileRangesShape(file: string, nb: seq<nat>, w: pos)
    ensures |nb| == 0 ==> FileRanges(file, nb, w) == []
    ensures 0 < |nb| < w ==> FileRanges(file, nb, w) == [ChompRange(file, nb[0], nb[|nb| - 1] + 1)]
    ensures |nb| >= w ==> |FileRanges(file, nb, w)| == |nb| - w + 1
    ensures |nb| >= w ==>
      forall i | 0 <= i <= |nb| - w :: FileRanges(file, nb, w)[i] == ChompRange(file, nb[i], nb[i + w - 1] + 1)
  {
  }

  /** Every range names a tracked file, is non-empty, fits, and starts and ends on non-blank lines. */
  lemma RangesNonBlank(files: seq<FileState>, w: pos)
    ensures AllNonBlankIn(Ranges(files, w), files)
  {
    EntryRangesSpans(Entries(files), w);
    SpansInFiles(files, Ranges(files, w));
  }

  /** Every range is a run of consecutive non-blank entries of one of the files. */
  lemma {:induction false} EntryRangesSpans(es: seq<(string, seq<nat>)>, w: pos)
    ensures forall r | r in EntryRanges(es, w) :: SpanOfEntries(es, r)
  {
    if es != [] {
      var m := |es| - 1;
      var (file, nb) := es[m];
      EntryRangesSpans(es[..m], w);
      SpansOfPrefix(es, m, EntryRanges(es[..m], w));
      forall r | r in FileRanges(file, nb, w) ensures SpanOfEntries(es, r) {
        if |nb| < w {
          assert r == Span(file, nb, 0, |nb|);
        } else {
          var ws := Windows(file, nb, w);
          var i :| 0 <= i < |ws| && ws[i] == r;
          assert r == Span(file, nb, i, i + w);
        }
      }
    }
  }

  /** With width 1 and no blank lines, range i of an n-line file is [i, i + 1). */
  lemma UnitWindowsOverFreshFile(file: string, n: nat)
    requires n >= 1
    ensures Unblanked(n, {}) == Iota(n)
    ensures |FileRanges(file, Iota(n), 1)| == n
    ensures forall i | 0 <= i < n :: FileRanges(file, Iota(n), 1)[i] == ChompRange(file, i, i + 1)
  {
    FreshFileIndices(n);
  }

  /** The counts the source's tests expect: 4 lines give 4, 3 or (5 lines, w = 3) 3 ranges. */
  lemma TestCounts(file: string)
    ensures |FileRanges(file, Iota(4), 1)| == 4
    ensures |FileRanges(file, Iota(4), 2)| == 3
    ensures |FileRanges(file, Iota(5), 3)| == 3
    ensures |FileRanges(file, [0, 2, 3], 1)| == 3 &&
      forall r | r in FileRanges(file, [0, 2, 3], 1) :: r.startLine != 1
  {
    assert FileRanges(file, [0, 2, 3], 1) == [ChompRange(file, 0, 1), ChompRange(file, 2, 3), ChompRange(file, 3, 4)];
  }
}
