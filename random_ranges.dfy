/**
 * Random-ranges strategy (chompie/src/strategies/random_ranges.rs): runs of
 * consecutive non-blank lines at a drawn start, of a drawn length between
 * 1 and a quarter of the file's non-blank lines.
 */
module RandomRanges {
  import opened Arith
  import opened Files
  import opened ChompRanges
  import opened Lcg

  datatype RandomRangesStrategy = RandomRangesStrategy(maxAttempts: nat, seed: u64)

  /** The reproducible default: seed 54321. */
  function New(maxAttempts: nat): (s: RandomRangesStrategy)
    ensures s.maxAttempts == maxAttempts && s.seed == 54321
  {
    RandomRangesStrategy(maxAttempts, 54321)
  }

  function WithSeed(maxAttempts: nat, seed: u64): (s: RandomRangesStrategy)
    ensures s.maxAttempts == maxAttempts && s.seed == seed
  {
    RandomRangesStrategy(maxAttempts, seed)
  }

  /** The longest run an attempt may draw in a file with `count` non-blank lines. */
  function MaxSize(count: nat): pos
  {
    Max(count / 4, 1)
  }

  /**
   * One attempt: draw a file; skip it when it has fewer than two non-blank
   * lines; otherwise draw a start entry and a length, and offer the run,
   * cut short at the file's last non-blank line.
   */
  function Attempt(es: seq<(string, seq<nat>)>, state: u64): (r: (u64, seq<ChompRange>))
    requires |es| > 0
  {
    var (s1, d1) := Next(state);
    var (path, nb) := es[d1 % |es|];
    if |nb| < 2 then (s1, [])
    else
      var count := |nb|;
      var (s2, d2) := Next(s1);
      var startIdx := d2 % count;
      var (s3, d3) := Next(s2);
      var size := d3 % MaxSize(count) + 1;
      var endIdx := Min(startIdx + size, count);
      if endIdx > startIdx then (s3, [Span(path, nb, startIdx, endIdx)]) else (s3, [])
  }

  function Loop(es: seq<(string, seq<nat>)>, state: u64, remaining: nat): seq<ChompRange>
    requires |es| > 0
    decreases remaining
  {
    if remaining == 0 then []
    else
      var (state', out) := Attempt(es, state);
      out + Loop(es, state', remaining - 1)
  }

  /** No files: nothing; else maxAttempts attempts. */
  function Ranges(s: RandomRangesStrategy, files: seq<FileState>): seq<ChompRange>
    reads files
  {
    if |files| == 0 then [] else Loop(Entries(files), s.seed, s.maxAttempts)
  }

  method GenerateRanges(s: RandomRangesStrategy, files: seq<FileState>) returns (ranges: seq<ChompRange>)
    ensures ranges == Ranges(s, files)
  {
    if |files| == 0 {
      return [];
    }
    ranges := RunAttempts(files, s.seed, s.maxAttempts);
  }

  lemma LoopStep(es: seq<(string, seq<nat>)>, state: u64, remaining: nat)
    requires |es| > 0 && remaining > 0
    ensures Loop(es, state, remaining) ==
      Attempt(es, state).1 + Loop(es, Attempt(es, state).0, remaining - 1)
  {
  }

  /** The attempt loop. */
  method RunAttempts(files: seq<FileState>, seed: u64, attempts: nat) returns (ranges: seq<ChompRange>)
    requires |files| > 0
    ensures ranges == Loop(Entries(files), seed, attempts)
  {
    ghost var es := Entries(files);
    ranges := [];
    var rngState := seed;
    for i := 0 to attempts
      invariant ranges + Loop(es, rngState, attempts - i) == Loop(es, seed, attempts)
    {
      var state', out := TryOnceIn(files, es, rngState, attempts - i);
      AppendAssoc(ranges, out, Loop(es, state', attempts - i - 1));
      rngState, ranges := state', ranges + out;
    }
  }

  /** One attempt, seen from the loop: what it offers, then the remaining attempts. */
  method TryOnceIn(files: seq<FileState>, ghost es: seq<(string, seq<nat>)>, state: u64, remaining: nat)
    returns (state': u64, out: seq<ChompRange>)
    requires |files| > 0 && remaining > 0 && es == Entries(files)
    ensures Loop(es, state, remaining) == out + Loop(es, state', remaining - 1)
  {
    LoopStep(es, state, remaining);
    state', out := TryOnce(files, state);
  }

  /** The body of the attempt loop, with its `continue`. */
  method TryOnce(files: seq<FileState>, state: u64) returns (state': u64, out: seq<ChompRange>)
    requires |files| > 0
    ensures (state', out) == Attempt(Entries(files), state)
  {
    var d1;
    state', d1 := Next(state).0, Next(state).1;
    out := [];
    var f := files[d1 % |files|];
    var nb := f.NonBlankLineIndices();
    if |nb| < 2 {
      return;
    }
    var count := |nb|;
    var d2, d3;
    state', d2 := Next(state').0, Next(state').1;
    var startIdx := d2 % count;
    var maxSize := Max(count / 4, 1);
    state', d3 := Next(state').0, Next(state').1;
    var size := d3 % maxSize + 1;
    var endIdx := Min(startIdx + size, count);
    if endIdx > startIdx {
      out := [ChompRange(f.path, nb[startIdx], nb[endIdx - 1] + 1)];
    }
  }

  /** A run of entries i..j of an entry with at least two non-blank lines, at most MaxSize long. */
  predicate DrawnRun(es: seq<(string, seq<nat>)>, r: ChompRange)
  {
    exists k, i, j | 0 <= k < |es| && 0 <= i < j <= |es[k].1| ::
      |es[k].1| >= 2 && j - i <= MaxSize(|es[k].1|) && r == Span(es[k].0, es[k].1, i, j)
  }

  /**
   * Every attempt offers at most one range, and every range is a run of
   * between one and MaxSize consecutive non-blank entries of a file with at
   * least two of them.
   */
  lemma {:induction false} LoopProperties(es: seq<(string, seq<nat>)>, state: u64, remaining: nat)
    requires |es| > 0
    ensures |Loop(es, state, remaining)| <= remaining
    ensures forall r | r in Loop(es, state, remaining) :: DrawnRun(es, r)
    decreases remaining
  {
    if remaining > 0 {
      var (state', out) := Attempt(es, state);
      LoopProperties(es, state', remaining - 1);
      LoopStep(es, state, remaining);
      AttemptDrawn(es, state);
    }
  }

  /** One attempt offers at most one range, a drawn run. */
  lemma AttemptDrawn(es: seq<(string, seq<nat>)>, state: u64)
    requires |es| > 0
    ensures |Attempt(es, state).1| <= 1 && forall r | r in Attempt(es, state).1 :: DrawnRun(es, r)
  {
    var out := Attempt(es, state).1;
    if out != [] {
      var (s1, d1) := Next(state);
      var k := d1 % |es|;
      var nb := es[k].1;
      var (s2, d2) := Next(s1);
      var (s3, d3) := Next(s2);
      var startIdx := d2 % |nb|;
      var endIdx := Min(startIdx + (d3 % MaxSize(|nb|) + 1), |nb|);
      assert out[0] == Span(es[k].0, nb, startIdx, endIdx);
      assert DrawnRun(es, out[0]);
    }
  }

  /**
   * No more ranges than attempts; each a non-empty range of a tracked file
   * starting and ending on non-blank lines.
   */
  lemma RangesProperties(s: RandomRangesStrategy, files: seq<FileState>)
    ensures |Ranges(s, files)| <= s.maxAttempts
    ensures AllNonBlankIn(Ranges(s, files), files)
  {
    if |files| > 0 {
      var es := Entries(files);
      LoopProperties(es, s.seed, s.maxAttempts);
      forall r | r in Ranges(s, files) ensures exists f | f in files :: NonBlankRangeIn(r, f) {
        var k, i, j :| 0 <= k < |es| && 0 <= i < j <= |es[k].1| &&
          |es[k].1| >= 2 && j - i <= MaxSize(|es[k].1|) && r == Span(es[k].0, es[k].1, i, j);
        SpanInFile(files[k], i, j);
        assert files[k] in files;
      }
    }
  }
}
