/**
 * Random-lines strategy (chompie/src/strategies/random_lines.rs): single
 * non-blank lines picked by the generator, at most one attempt per
 * non-blank line, never the same line twice.
 */
module RandomLines {
  import opened Arith
  import opened Files
  import opened ChompRanges
  import opened Lcg

  datatype RandomLinesStrategy = RandomLinesStrategy(maxAttempts: nat, seed: u64)

  /** The reproducible default: seed 12345. */
  function New(maxAttempts: nat): (s: RandomLinesStrategy)
    ensures s.maxAttempts == maxAttempts && s.seed == 12345
  {
    RandomLinesStrategy(maxAttempts, 12345)
  }

  function WithSeed(maxAttempts: nat, seed: u64): (s: RandomLinesStrategy)
    ensures s.maxAttempts == maxAttempts && s.seed == seed
  {
    RandomLinesStrategy(maxAttempts, seed)
  }

  /** A candidate line of a file, as remembered between attempts. */
  type LineKey = (string, nat)

  /**
   * One attempt: draw a file; if it has non-blank lines, draw one of them
   * and offer it unless it was offered before. Yields the new generator
   * state, the new set of offered lines and what the attempt offers.
   */
  function Attempt(es: seq<(string, seq<nat>)>, state: u64, tried: set<LineKey>)
    : (r: (u64, set<LineKey>, seq<ChompRange>))
    requires |es| > 0
  {
    var (s1, d1) := Next(state);
    var (path, nb) := es[d1 % |es|];
    if |nb| == 0 then (s1, tried, [])
    else
      var (s2, d2) := Next(s1);
      var line := nb[d2 % |nb|];
      if (path, line) in tried then (s2, tried, [])
      else (s2, tried + {(path, line)}, [ChompRange(path, line, line + 1)])
  }

  /** `remaining` attempts from the given generator state. */
  function Loop(es: seq<(string, seq<nat>)>, state: u64, tried: set<LineKey>, remaining: nat)
    : seq<ChompRange>
    requires |es| > 0
    decreases remaining
  {
    if remaining == 0 then []
    else
      var (state', tried', out) := Attempt(es, state, tried);
      out + Loop(es, state', tried', remaining - 1)
  }

  /** No file has a non-blank line: nothing; else min(maxAttempts, total) attempts. */
  function Ranges(s: RandomLinesStrategy, files: seq<FileState>): seq<ChompRange>
    requires AllValid(files)
    reads files
  {
    var total := SumNonBlankLines(files);
    if total == 0 then []
    else Loop(Entries(files), s.seed, {}, Min(s.maxAttempts, total))
  }

  method GenerateRanges(s: RandomLinesStrategy, files: seq<FileState>) returns (ranges: seq<ChompRange>)
    requires AllValid(files)
    ensures ranges == Ranges(s, files)
  {
    var total := TotalNonBlank(files);
    if total == 0 {
      return [];
    }
    ranges := RunAttempts(files, s.seed, Min(s.maxAttempts, total));
  }

  lemma LoopStep(es: seq<(string, seq<nat>)>, state: u64, tried: set<LineKey>, remaining: nat)
    requires |es| > 0 && remaining > 0
    ensures Loop(es, state, tried, remaining) ==
      Attempt(es, state, tried).2 + Loop(es, Attempt(es, state, tried).0, Attempt(es, state, tried).1, remaining - 1)
  {
  }

  /** The attempt loop. */
  method RunAttempts(files: seq<FileState>, seed: u64, attempts: nat) returns (ranges: seq<ChompRange>)
    requires |files| > 0
    ensures ranges == Loop(Entries(files), seed, {}, attempts)
  {
    ghost var es := Entries(files);
    ranges := [];
    var rngState := seed;
    var tried: set<LineKey> := {};
    for i := 0 to attempts
      invariant ranges + Loop(es, rngState, tried, attempts - i) == Loop(es, seed, {}, attempts)
    {
      var state', tried', out := TryOnceIn(files, es, rngState, tried, attempts - i);
      AppendAssoc(ranges, out, Loop(es, state', tried', attempts - i - 1));
      rngState, tried, ranges := state', tried', ranges + out;
    }
  }

  /** One attempt, seen from the loop: what it offers, then the remaining attempts. */
  method TryOnceIn(files: seq<FileState>, ghost es: seq<(string, seq<nat>)>, state: u64,
                   tried: set<LineKey>, remaining: nat)
    returns (state': u64, tried': set<LineKey>, out: seq<ChompRange>)
    requires |files| > 0 && remaining > 0 && es == Entries(files)
    ensures Loop(es, state, tried, remaining) == out + Loop(es, state', tried', remaining - 1)
  {
    LoopStep(es, state, tried, remaining);
    state', tried', out := TryOnce(files, state, tried);
  }

  /** Sums the per-file non-blank counts. */
  method TotalNonBlank(files: seq<FileState>) returns (total: nat)
    requires AllValid(files)
    ensures total == SumNonBlankLines(files)
  {
    total := 0;
    var k := 0;
    while k < |files|
      invariant 0 <= k <= |files|
      invariant total == SumNonBlankLines(files[..k])
    {
      assert files[..k + 1][..k] == files[..k];
      total := total + files[k].NonBlankLines();
      k := k + 1;
    }
    assert files[..k] == files;
  }

  /** The body of the attempt loop, with its two `continue`s. */
  method TryOnce(files: seq<FileState>, state: u64, tried: set<LineKey>)
    returns (state': u64, tried': set<LineKey>, out: seq<ChompRange>)
    requires |files| > 0
    ensures (state', tried', out) == Attempt(Entries(files), state, tried)
  {
    var d1;
    state', d1 := Next(state).0, Next(state).1;
    tried', out := tried, [];
    var f := files[d1 % |files|];
    var nb := f.NonBlankLineIndices();
    if |nb| == 0 {
      return;
    }
    var d2;
    state', d2 := Next(state').0, Next(state').1;
    var line := nb[d2 % |nb|];
    if (f.path, line) in tried {
      return;
    }
    tried' := tried + {(f.path, line)};
    out := [ChompRange(f.path, line, line + 1)];
  }

  /** Every range covers exactly one line. */
  ghost predicate SingleLines(rs: seq<ChompRange>)
  {
    forall r | r in rs :: r.endLine == r.startLine + 1
  }

  /** Every range starts on a listed non-blank line of an entry with its path. */
  ghost predicate InEntries(rs: seq<ChompRange>, es: seq<(string, seq<nat>)>)
  {
    forall r | r in rs :: exists k | 0 <= k < |es| :: es[k].0 == r.file && r.startLine in es[k].1
  }

  /** No range starts on a line remembered in `tried`. */
  ghost predicate Untried(rs: seq<ChompRange>, tried: set<LineKey>)
  {
    forall r | r in rs :: (r.file, r.startLine) !in tried
  }

  /** No two ranges start on the same line of the same file. */
  ghost predicate NoRepeats(rs: seq<ChompRange>)
  {
    forall i, j | 0 <= i < j < |rs| :: (rs[i].file, rs[i].startLine) != (rs[j].file, rs[j].startLine)
  }

  /**
   * What the attempts offer: at most one range per attempt, each a single
   * non-blank line of one of the entries, none offered before, none twice.
   */
  lemma LoopProperties(es: seq<(string, seq<nat>)>, state: u64, tried: set<LineKey>, remaining: nat)
    requires |es| > 0
    ensures |Loop(es, state, tried, remaining)| <= remaining
    ensures SingleLines(Loop(es, state, tried, remaining))
    ensures InEntries(Loop(es, state, tried, remaining), es)
    ensures Untried(Loop(es, state, tried, remaining), tried)
    ensures NoRepeats(Loop(es, state, tried, remaining))
  {
    LoopShape(es, state, tried, remaining);
    LoopFresh(es, state, tried, remaining);
  }

  /** One attempt offers at most one single line of an entry, not tried before, and remembers it. */
  lemma DrawEffect(es: seq<(string, seq<nat>)>, state: u64, tried: set<LineKey>)
    requires |es| > 0
    ensures var a := Attempt(es, state, tried);
      |a.2| <= 1 && SingleLines(a.2) && InEntries(a.2, es) && Untried(a.2, tried) &&
      tried <= a.1 && forall r | r in a.2 :: (r.file, r.startLine) in a.1
  {
    var a := Attempt(es, state, tried);
    if a.2 != [] {
      var d1 := Next(state).1;
      assert es[d1 % |es|].0 == a.2[0].file && a.2[0].startLine in es[d1 % |es|].1;
    }
  }

  lemma {:induction false} LoopShape(es: seq<(string, seq<nat>)>, state: u64, tried: set<LineKey>, remaining: nat)
    requires |es| > 0
    ensures |Loop(es, state, tried, remaining)| <= remaining
    ensures SingleLines(Loop(es, state, tried, remaining))
    ensures InEntries(Loop(es, state, tried, remaining), es)
    decreases remaining
  {
    if remaining > 0 {
      var a := Attempt(es, state, tried);
      var rest := Loop(es, a.0, a.1, remaining - 1);
      LoopShape(es, a.0, a.1, remaining - 1);
      LoopStep(es, state, tried, remaining);
      DrawEffect(es, state, tried);
      assert forall r | r in a.2 + rest :: r in a.2 || r in rest;
    }
  }

  lemma {:induction false} LoopFresh(es: seq<(string, seq<nat>)>, state: u64, tried: set<LineKey>, remaining: nat)
    requires |es| > 0
    ensures Untried(Loop(es, state, tried, remaining), tried)
    ensures NoRepeats(Loop(es, state, tried, remaining))
    decreases remaining
  {
    if remaining > 0 {
      var a := Attempt(es, state, tried);
      LoopFresh(es, a.0, a.1, remaining - 1);
      LoopStep(es, state, tried, remaining);
      DrawEffect(es, state, tried);
      FreshAppend(a.2, Loop(es, a.0, a.1, remaining - 1), tried, a.1);
    }
  }

  /**
   * A fresh attempt followed by ranges that avoid everything it remembered
   * avoids `tried` and repeats nothing.
   */
  lemma FreshAppend(out: seq<ChompRange>, rest: seq<ChompRange>, tried: set<LineKey>, tried': set<LineKey>)
    requires |out| <= 1 && Untried(out, tried) && tried <= tried'
    requires forall r | r in out :: (r.file, r.startLine) in tried'
    requires Untried(rest, tried') && NoRepeats(rest)
    ensures Untried(out + rest, tried) && NoRepeats(out + rest)
  {
    var rs := out + rest;
    assert forall r | r in rs :: r in out || r in rest;
    if out != [] {
      forall i, j | 0 <= i < j < |rs| ensures (rs[i].file, rs[i].startLine) != (rs[j].file, rs[j].startLine) {
        assert rs[j] == rest[j - 1] && rest[j - 1] in rest;
        if i > 0 {
          assert rs[i] == rest[i - 1];
        } else {
          assert rs[0] in out;
        }
      }
    } else {
      assert rs == rest;
    }
  }

  /**
   * No more ranges than attempts, never more than the number of
   * non-blank lines; each range one non-blank line of a tracked file;
   * no line offered twice.
   */
  lemma RangesProperties(s: RandomLinesStrategy, files: seq<FileState>)
    requires AllValid(files)
    ensures |Ranges(s, files)| <= Min(s.maxAttempts, SumNonBlankLines(files))
    ensures forall r | r in Ranges(s, files) :: r.endLine == r.startLine + 1
    ensures AllNonBlankIn(Ranges(s, files), files)
    ensures var rs := Ranges(s, files);
      forall i, j | 0 <= i < j < |rs| :: (rs[i].file, rs[i].startLine) != (rs[j].file, rs[j].startLine)
  {
    var total := SumNonBlankLines(files);
    if total > 0 {
      var es := Entries(files);
      LoopProperties(es, s.seed, {}, Min(s.maxAttempts, total));
      forall r | r in Ranges(s, files) ensures exists f | f in files :: NonBlankRangeIn(r, f) {
        var k :| 0 <= k < |es| && es[k].0 == r.file && r.startLine in es[k].1;
        EntryLineInFile(files, k, r);
      }
    }
  }
}
