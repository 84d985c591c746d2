/**
 * The older bisection engine (chompie/src/bisector.rs): the same attempt
 * as the Chomper, plus its own range generator, which halves the physical
 * lines of each file and ignores which of them are blank. Its ChompRange
 * struct has the same three fields as the shared one, which is used here.
 */
module Bisecting {
  import opened Wrappers
  import opened Arith
  import opened Files
  import opened ChompRanges
  import opened CommandRunner
  import opened Trials
  import Bisection

  /** The levels of n / 2, n / 4, ..., 1 lines over the physical lines [0, n) of a file. */
  function FileRanges(path: string, n: nat): seq<ChompRange>
  {
    Bisection.Levels(path, Iota(n), n / 2)
  }

  function Ranges(files: seq<FileState>): seq<ChompRange>
  {
    if files == [] then []
    else
      var f := files[|files| - 1];
      Ranges(files[..|files| - 1]) + FileRanges(f.path, |f.originalLines|)
  }

  lemma RangesStep(files: seq<FileState>, k: nat)
    requires k < |files|
    ensures Ranges(files[..k + 1]) == Ranges(files[..k]) + FileRanges(files[k].path, |files[k].originalLines|)
  {
    assert files[..k + 1][..k] == files[..k];
  }

  /** The inner loop: the pieces [start, min(start + size, n)) left to right. */
  method PhysicalLevel(path: string, n: nat, size: pos) returns (cs: seq<ChompRange>)
    ensures cs == Bisection.Chunks(path, Iota(n), size, 0)
  {
    var start := 0;
    cs := [];
    while start < n
      invariant 0 <= start <= n
      invariant cs + Bisection.Chunks(path, Iota(n), size, start) == Bisection.Chunks(path, Iota(n), size, 0)
      decreases n - start
    {
      var end := Min(start + size, n);
      var piece := ChompRange(path, start, end);
      assert Bisection.Chunks(path, Iota(n), size, start) == [piece] + Bisection.Chunks(path, Iota(n), size, end);
      assert cs + ([piece] + Bisection.Chunks(path, Iota(n), size, end)) ==
        (cs + [piece]) + Bisection.Chunks(path, Iota(n), size, end);
      cs := cs + [piece];
      start := end;
    }
  }

  /** The halving loop over one file of n lines. */
  method PhysicalFile(path: string, n: nat) returns (rs: seq<ChompRange>)
    ensures rs == FileRanges(path, n)
  {
    var rangeSize: nat := n / 2;
    rs := [];
    while rangeSize > 0
      invariant rs + Bisection.Levels(path, Iota(n), rangeSize) == FileRanges(path, n)
    {
      var level := PhysicalLevel(path, n, rangeSize);
      assert Bisection.Levels(path, Iota(n), rangeSize) == level + Bisection.Levels(path, Iota(n), rangeSize / 2);
      assert rs + (level + Bisection.Levels(path, Iota(n), rangeSize / 2)) ==
        (rs + level) + Bisection.Levels(path, Iota(n), rangeSize / 2);
      rs := rs + level;
      rangeSize := rangeSize / 2;
    }
    assert rs + Bisection.Levels(path, Iota(n), rangeSize) == rs + [];
  }

  class Bisector {
    const fm: FileManager
    const command: Command
    const disk: Disk
    var baseline: Option<RunResult>
    var tested: set<StateKey>

    ghost predicate Valid()
      reads this, fm, fm.files
    {
      fm.Valid()
    }

    constructor (fm: FileManager, command: Command, disk: Disk)
      requires fm.Valid()
      ensures Valid()
      ensures this.fm == fm && this.command == command && this.disk == disk
      ensures baseline == None && tested == {}
    {
      this.fm := fm;
      this.command := command;
      this.disk := disk;
      baseline := None;
      tested := {};
    }

    /** Runs the command on the current state; a result becomes the baseline, a failure changes nothing. */
    method EstablishBaseline() returns (r: Result<RunResult, ChompError>)
      modifies this`baseline
      ensures match command(KeyOf(fm.files))
        case Some(out) => r == Ok(out) && baseline == Some(out)
        case None => r == Err(LaunchFailed) && baseline == old(baseline)
    {
      var out := command(KeyOf(fm.files));
      if out.None? {
        return Err(LaunchFailed);
      }
      baseline := Some(out.value);
      r := Ok(out.value);
    }

    function BaselineResult(): Option<RunResult>
      reads this
    {
      baseline
    }

    /** One attempt on the live state (see Trials.Attempt). */
    method TryBlankRange(range: ChompRange) returns (r: Result<bool, ChompError>)
      requires Valid()
      modifies this`tested, fm.files
      ensures Valid() && fm.files == old(fm.files) && baseline == old(baseline)
      ensures var t := Attempt(old(KeyOf(fm.files)), Totals(fm.files), command, disk, baseline, old(tested), range);
        r == t.result && KeyOf(fm.files) == t.key && tested == t.tested
    {
      r, tested := TryBlank(fm, command, disk, baseline, tested, range);
    }

    /** Every file with lines, halved level by level over its physical lines. */
    method GenerateRanges() returns (ranges: seq<ChompRange>)
      ensures ranges == Ranges(fm.files)
    {
      var files := fm.files;
      ranges := [];
      var k := 0;
      while k < |files|
        invariant 0 <= k <= |files|
        invariant ranges == Ranges(files[..k])
      {
        RangesStep(files, k);
        var total := files[k].TotalLines();
        if total != 0 {
          var mine := PhysicalFile(files[k].path, total);
          ranges := ranges + mine;
        } else {
          assert FileRanges(files[k].path, total) == [];
        }
        k := k + 1;
      }
      assert files[..k] == files;
    }
  }

  /**
   * One level over the physical lines [start, n) tiles them: it starts at
   * `start`, ends at n, each piece is non-empty and starts where the
   * previous one ended.
   */
  lemma {:induction false} LevelTiles(path: string, n: nat, size: pos, start: nat)
    requires start < n
    ensures var cs := Bisection.Chunks(path, Iota(n), size, start);
      |cs| > 0 && cs[0].startLine == start && cs[|cs| - 1].endLine == n &&
      (forall k | 0 <= k < |cs| :: cs[k].file == path && cs[k].startLine < cs[k].endLine <= n) &&
      (forall k | 0 <= k < |cs| - 1 :: cs[k].endLine == cs[k + 1].startLine)
    decreases n - start
  {
    var nb := Iota(n);
    var end := Min(start + size, n);
    var cs := Bisection.Chunks(path, nb, size, start);
    var rest := Bisection.Chunks(path, nb, size, end);
    assert cs == [ChompRange(path, start, end)] + rest;
    if end < n {
      LevelTiles(path, n, size, end);
      assert forall k | 1 <= k < |cs| :: cs[k] == rest[k - 1];
    }
  }

  /** Every physical range names its file and fits inside it. */
  lemma {:induction false} RangesFit(files: seq<FileState>)
    ensures forall r | r in Ranges(files) ::
      exists f | f in files :: r.file == f.path && r.startLine < r.endLine <= |f.originalLines|
  {
    if files != [] {
      var init := files[..|files| - 1];
      var f := files[|files| - 1];
      RangesFit(init);
      forall r | r in FileRanges(f.path, |f.originalLines|)
        ensures r.file == f.path && r.startLine < r.endLine <= |f.originalLines|
      {
        LevelsFit(f.path, |f.originalLines|, |f.originalLines| / 2, r);
      }
      forall r | r in Ranges(files)
        ensures exists g | g in files :: r.file == g.path && r.startLine < r.endLine <= |g.originalLines|
      {
        if r in Ranges(init) {
          var g :| g in init && r.file == g.path && r.startLine < r.endLine <= |g.originalLines|;
          assert g in files;
        } else {
          assert f in files;
        }
      }
    }
  }

  lemma {:induction false} LevelsFit(path: string, n: nat, size: nat, r: ChompRange)
    requires r in Bisection.Levels(path, Iota(n), size)
    ensures r.file == path && r.startLine < r.endLine <= n
    decreases size
  {
    if r in Bisection.Chunks(path, Iota(n), size, 0) {
      LevelTiles(path, n, size, 0);
    } else {
      LevelsFit(path, n, size / 2, r);
    }
  }

  /** Files of zero or one line yield nothing; four lines give halves then quarters. */
  lemma SmallFiles(path: string)
    ensures FileRanges(path, 0) == [] && FileRanges(path, 1) == []
    ensures FileRanges(path, 4) == [ChompRange(path, 0, 2), ChompRange(path, 2, 4),
      ChompRange(path, 0, 1), ChompRange(path, 1, 2), ChompRange(path, 2, 3), ChompRange(path, 3, 4)]
  {
    var nb := Iota(4);
    assert Bisection.Chunks(path, nb, 2, 2) == [ChompRange(path, 2, 4)];
    assert Bisection.Chunks(path, nb, 1, 3) == [ChompRange(path, 3, 4)];
    assert Bisection.Chunks(path, nb, 1, 2) == [ChompRange(path, 2, 3), ChompRange(path, 3, 4)];
    assert Bisection.Chunks(path, nb, 1, 1) == [ChompRange(path, 1, 2), ChompRange(path, 2, 3), ChompRange(path, 3, 4)];
  }

  /**
   * The matching-range scenario of bisector.rs: a three-line file, a
   * command whose output never changes, a baseline, then blanking the
   * first line; the attempt succeeds.
   */
  method MatchingRangeScenario(out: RunResult) returns (r: Result<bool, ChompError>)
    ensures r == Ok(true)
  {
    var b := ScenarioSetup(out);
    ghost var key := KeyOf(b.fm.files);
    assert FindPath(key, "test.txt") == Some(0);
    ConstantCommandSucceeds(key, Totals(b.fm.files), b.command, b.disk, out, {}, ChompRange("test.txt", 0, 1));
    r := b.TryBlankRange(ChompRange("test.txt", 0, 1));
  }

  /** One fresh three-line file, a constant command that always runs, and its baseline. */
  method ScenarioSetup(out: RunResult) returns (b: Bisector)
    ensures fresh(b) && fresh(b.fm) && b.Valid()
    ensures |b.fm.files| == 1 && b.fm.files == [b.fm.files[0]] && fresh(b.fm.files[0])
    ensures b.fm.files[0].path == "test.txt"
    ensures (forall k :: b.command(k) == Some(out)) && (forall k :: b.disk(k))
    ensures b.baseline == Some(out) && b.tested == {}
  {
    var fm := ThreeLineManager();
    b := new Bisector(fm, _ => Some(out), _ => true);
    var _ := b.EstablishBaseline();
  }
}
