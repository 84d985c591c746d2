/**
 * Up-to-N-lines strategy (chompie/src/strategies/up_to_n_lines.rs):
 * windows of 1, then 2, ..., then N consecutive non-blank lines; for each
 * size, every file in order.
 */
module UpToNLines {
  import opened Arith
  import opened Files
  import opened ChompRanges

  datatype UpToNLinesStrategy = UpToNLinesStrategy(maxWindowSize: pos)

  /** A maximum of 0 is raised to 1. */
  function New(maxWindowSize: nat): (s: UpToNLinesStrategy)
    ensures s.maxWindowSize == Max(maxWindowSize, 1)
  {
    UpToNLinesStrategy(if maxWindowSize == 0 then 1 else maxWindowSize)
  }

  /** The windows of size w of one file, given its non-blank index list. */
  function FileLevel(file: string, nb: seq<nat>, w: pos): seq<ChompRange>
  {
    if |nb| == 0 then [] else Windows(file, nb, w)
  }

  /** The windows of size w over every entry, file by file (a file with fewer than w non-blank lines gives none). */
  function Level(es: seq<(string, seq<nat>)>, w: pos): seq<ChompRange>
  {
    if es == [] then []
    else Level(es[..|es| - 1], w) + FileLevel(es[|es| - 1].0, es[|es| - 1].1, w)
  }

  /** All levels 1..n, smaller windows first. */
  function AllLevels(es: seq<(string, seq<nat>)>, n: nat): seq<ChompRange>
  {
    if n == 0 then [] else AllLevels(es, n - 1) + Level(es, n)
  }

  /** What the strategy proposes for the tracked files. */
  function Ranges(files: seq<FileState>, n: nat): seq<ChompRange>
    reads files
  {
    AllLevels(Entries(files), n)
  }

  lemma LevelStep(es: seq<(string, seq<nat>)>, k: nat, w: pos)
    requires k < |es|
    ensures Level(es[..k + 1], w) == Level(es[..k], w) + FileLevel(es[k].0, es[k].1, w)
  {
    assert es[..k + 1][..k] == es[..k];
  }

  method GenerateRanges(s: UpToNLinesStrategy, files: seq<FileState>) returns (ranges: seq<ChompRange>)
    ensures ranges == Ranges(files, s.maxWindowSize)
  {
    ghost var es := Entries(files);
    ranges := [];
    for windowSize := 1 to s.maxWindowSize + 1
      invariant ranges == AllLevels(es, windowSize - 1)
    {
      var level := LevelRanges(files, es, windowSize);
      ranges := ranges + level;
    }
  }

  /** One pass over the files for one window size. */
  method LevelRanges(files: seq<FileState>, ghost es: seq<(string, seq<nat>)>, w: pos) returns (level: seq<ChompRange>)
    requires es == Entries(files)
    ensures level == Level(es, w)
  {
    level := [];
    for k := 0 to |files|
      invariant level == Level(es[..k], w)
    {
      LevelStep(es, k, w);
      level := PushFileWindows(level, files[k].path, files[k].NonBlankLineIndices(), w);
    }
    assert es[..|files|] == es;
  }

  /** A file without non-blank lines is skipped before any window is tried. */
  method PushFileWindows(ranges: seq<ChompRange>, file: string, nb: seq<nat>, w: pos)
    returns (ranges': seq<ChompRange>)
    ensures ranges' == ranges + FileLevel(file, nb, w)
  {
    if |nb| == 0 {
      ranges' := ranges;
    } else {
      ranges' := PushWindows(ranges, file, nb, w);
    }
  }

  /** Ranges for window sizes up to m come, unchanged, before those of larger sizes. */
  lemma {:induction false} SmallerWindowsFirst(es: seq<(string, seq<nat>)>, m: nat, n: nat)
    requires m <= n
    ensures AllLevels(es, m) <= AllLevels(es, n)
    decreases n
  {
    if m < n {
      SmallerWindowsFirst(es, m, n - 1);
      var a := AllLevels(es, n - 1);
      assert a <= a + Level(es, n);
    }
  }

  /** Non-blank line counts of the entries, in order. */
  function Counts(es: seq<(string, seq<nat>)>): (cs: seq<nat>)
    ensures |cs| == |es|
  {
    if es == [] then []
    else Counts(es[..|es| - 1]) + [|es[|es| - 1].1|]
  }

  /** A file with c non-blank lines has max(c - w + 1, 0) windows of size w. */
  function LevelCount(cs: seq<nat>, w: pos): nat
  {
    if cs == [] then 0
    else LevelCount(cs[..|cs| - 1], w) + (if w <= cs[|cs| - 1] then cs[|cs| - 1] - w + 1 else 0)
  }

  /** The sum over window sizes 1..n of the level counts. */
  function TotalCount(cs: seq<nat>, n: nat): nat
  {
    if n == 0 then 0 else TotalCount(cs, n - 1) + LevelCount(cs, n)
  }

  lemma {:induction false} LevelSize(es: seq<(string, seq<nat>)>, w: pos)
    ensures |Level(es, w)| == LevelCount(Counts(es), w)
  {
    if es != [] {
      LevelSize(es[..|es| - 1], w);
      var cs := Counts(es);
      assert cs[..|cs| - 1] == Counts(es[..|es| - 1]);
    }
  }

  /** The number of ranges is the sum, over sizes 1..N and files, of the window counts. */
  lemma {:induction false} RangesSize(es: seq<(string, seq<nat>)>, n: nat)
    ensures |AllLevels(es, n)| == TotalCount(Counts(es), n)
  {
    if n > 0 {
      RangesSize(es, n - 1);
      LevelSize(es, n);
    }
  }

  /** The counts the source's tests expect: 7, 7, 6, 0, 8 and (N = 0 raised to 1) 2. */
  lemma TestCounts()
    ensures TotalCount([4], 2) == 7
    ensures TotalCount([3], 10) == 6
    ensures TotalCount([0], 3) == 0
    ensures TotalCount([2, 3], 2) == 8
    ensures TotalCount([2], New(0).maxWindowSize) == 2
  {
    assert TotalCount([3], 10) == 6 by {
      assert forall w: pos | w > 3 :: LevelCount([3], w) == 0;
      assert TotalCount([3], 3) == 6;
      LevelCountsVanish([3], 3, 10);
    }
  }

  /** Once the window exceeds every file, further sizes add nothing. */
  lemma {:induction false} LevelCountsVanish(cs: seq<nat>, m: nat, n: nat)
    requires m <= n
    requires forall k | 0 <= k < |cs| :: cs[k] <= m
    ensures TotalCount(cs, n) == TotalCount(cs, m)
    decreases n
  {
    if m < n {
      LevelCountsVanish(cs, m, n - 1);
      LevelCountZero(cs, n);
    }
  }

  lemma {:induction false} LevelCountZero(cs: seq<nat>, w: pos)
    requires forall k | 0 <= k < |cs| :: cs[k] < w
    ensures LevelCount(cs, w) == 0
  {
    if cs != [] {
      LevelCountZero(cs[..|cs| - 1], w);
    }
  }

  /** Every range names a tracked file, is non-empty, fits, and starts and ends on non-blank lines. */
  lemma RangesNonBlank(files: seq<FileState>, n: nat)
    ensures AllNonBlankIn(Ranges(files, n), files)
  {
    AllLevelsSpans(Entries(files), n);
    SpansInFiles(files, Ranges(files, n));
  }

  /** Every range of every level is a window of one of the entries. */
  lemma {:induction false} AllLevelsSpans(es: seq<(string, seq<nat>)>, n: nat)
    ensures forall r | r in AllLevels(es, n) :: SpanOfEntries(es, r)
  {
    if n > 0 {
      AllLevelsSpans(es, n - 1);
      LevelSpans(es, n);
    }
  }

  /** Every range of one level is a window of one of the entries. */
  lemma {:induction false} LevelSpans(es: seq<(string, seq<nat>)>, w: pos)
    ensures forall r | r in Level(es, w) :: SpanOfEntries(es, r)
  {
    if es != [] {
      var m := |es| - 1;
      LevelSpans(es[..m], w);
      SpansOfPrefix(es, m, Level(es[..m], w));
      forall r | r in FileLevel(es[m].0, es[m].1, w) ensures SpanOfEntries(es, r) {
        var ws := Windows(es[m].0, es[m].1, w);
        var i :| 0 <= i < |ws| && ws[i] == r;
        assert r == Span(es[m].0, es[m].1, i, i + w);
      }
    }
  }
}
