/**
 * The strategy interface (chompie/src/strategy.rs and
 * chompie/src/strategies/mod.rs): a name and an ordered list of ranges
 * computed from the file states. The five strategies are the cases of one
 * datatype.
 */
module Strategies {
  import opened Files
  import opened ChompRanges
  import Bisection
  import RandomLines
  import RandomRanges
  import SlidingWindow
  import UpToNLines

  datatype Strategy =
    | BisectionS(bisection: Bisection.BisectionStrategy)
    | RandomLinesS(randomLines: RandomLines.RandomLinesStrategy)
    | RandomRangesS(randomRanges: RandomRanges.RandomRangesStrategy)
    | SlidingWindowS(slidingWindow: SlidingWindow.SlidingWindowStrategy)
    | UpToNLinesS(upToNLines: UpToNLines.UpToNLinesStrategy)

  /** The display name. */
  function Name(s: Strategy): string
  {
    match s
    case BisectionS(_) => "bisection"
    case RandomLinesS(_) => "random_lines"
    case RandomRangesS(_) => "random_ranges"
    case SlidingWindowS(_) => "sliding_window"
    case UpToNLinesS(_) => "up_to_n_lines"
  }

  /** Different kinds of strategy have different names. */
  lemma NamesDistinct(s: Strategy, t: Strategy)
    requires Name(s) == Name(t)
    ensures s.BisectionS? <==> t.BisectionS?
    ensures s.RandomLinesS? <==> t.RandomLinesS?
    ensures s.RandomRangesS? <==> t.RandomRangesS?
    ensures s.SlidingWindowS? <==> t.SlidingWindowS?
    ensures s.UpToNLinesS? <==> t.UpToNLinesS?
  {
  }

  /** The ranges a strategy proposes for the given file states. */
  function Ranges(s: Strategy, files: seq<FileState>): seq<ChompRange>
    requires AllValid(files)
    reads files
  {
    match s
    case BisectionS(b) => Bisection.Ranges(files)
    case RandomLinesS(r) => RandomLines.Ranges(r, files)
    case RandomRangesS(r) => RandomRanges.Ranges(r, files)
    case SlidingWindowS(w) => SlidingWindow.Ranges(files, w.windowSize)
    case UpToNLinesS(u) => UpToNLines.Ranges(files, u.maxWindowSize)
  }

  method GenerateRanges(s: Strategy, files: seq<FileState>) returns (ranges: seq<ChompRange>)
    requires AllValid(files)
    ensures ranges == Ranges(s, files)
  {
    match s
    case BisectionS(b) => ranges := Bisection.GenerateRanges(b, files);
    case RandomLinesS(r) => ranges := RandomLines.GenerateRanges(r, files);
    case RandomRangesS(r) => ranges := RandomRanges.GenerateRanges(r, files);
    case SlidingWindowS(w) => ranges := SlidingWindow.GenerateRanges(w, files);
    case UpToNLinesS(u) => ranges := UpToNLines.GenerateRanges(u, files);
  }

  /**
   * Whatever the strategy, every proposed range names a tracked file, is
   * non-empty, ends inside it, and starts and ends on non-blank lines.
   */
  lemma RangesNonBlank(s: Strategy, files: seq<FileState>)
    requires AllValid(files)
    ensures AllNonBlankIn(Ranges(s, files), files)
  {
    match s
    case BisectionS(_) => Bisection.RangesNonBlank(files);
    case RandomLinesS(r) => RandomLines.RangesProperties(r, files);
    case RandomRangesS(r) => RandomRanges.RangesProperties(r, files);
    case SlidingWindowS(w) => SlidingWindow.RangesNonBlank(files, w.windowSize);
    case UpToNLinesS(u) => UpToNLines.RangesNonBlank(files, u.maxWindowSize);
  }
}
