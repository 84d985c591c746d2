/**
 * The engine that runs a strategy (chompie/src/chomper.rs): it owns the
 * file manager, the command, the baseline result and the memo of tested
 * states, and attempts a strategy's ranges one after another.
 */
module Chomping {
  import opened Wrappers
  import opened Files
  import opened ChompRanges
  import opened CommandRunner
  import opened Trials
  import Strategies
  import Bisection

  class Chomper {
    const fm: FileManager
    const command: Command
    const disk: Disk
    var baseline: Option<RunResult>
    var tested: set<StateKey>

    ghost predicate Valid()
      reads this, fm, fm.files
    {
      fm.Valid()
    }

    constructor (fm: FileManager, command: Command, disk: Disk)
      requires fm.Valid()
      ensures Valid()
      ensures this.fm == fm && this.command == command && this.disk == disk
      ensures baseline == None && tested == {}
    {
      this.fm := fm;
      this.command := command;
      this.disk := disk;
      baseline := None;
      tested := {};
    }

    /** Runs the command on the current state; a result becomes the baseline, a failure changes nothing. */
    method EstablishBaseline() returns (r: Result<RunResult, ChompError>)
      modifies this`baseline
      ensures match command(KeyOf(fm.files))
        case Some(out) => r == Ok(out) && baseline == Some(out)
        case None => r == Err(LaunchFailed) && baseline == old(baseline)
    {
      var out := command(KeyOf(fm.files));
      if out.None? {
        return Err(LaunchFailed);
      }
      baseline := Some(out.value);
      r := Ok(out.value);
    }

    function BaselineResult(): Option<RunResult>
      reads this
    {
      baseline
    }

    /** The number of distinct states the command has been run on. */
    function ChompsTested(): nat
      reads this
    {
      |tested|
    }

    /** One attempt on the live state (see Trials.Attempt). */
    method TryBlankRange(range: ChompRange) returns (r: Result<bool, ChompError>)
      requires Valid()
      modifies this`tested, fm.files
      ensures Valid()
      ensures var t := Attempt(old(KeyOf(fm.files)), Totals(fm.files), command, disk, baseline, old(tested), range);
        r == t.result && KeyOf(fm.files) == t.key && tested == t.tested
    {
      r, tested := TryBlank(fm, command, disk, baseline, tested, range);
    }

    /**
     * Generates the strategy's ranges once, from the state at entry, and
     * attempts them in order; returns the number of successes, errors
     * being skipped.
     */
    method ExecuteStrategy(strategy: Strategies.Strategy) returns (successful: nat)
      requires Valid()
      modifies this`tested, fm.files
      ensures Valid() && fm.files == old(fm.files) && baseline == old(baseline)
      ensures var s := Run(old(KeyOf(fm.files)), old(Totals(fm.files)), command, disk, baseline, old(tested),
                           old(Strategies.Ranges(strategy, fm.files)));
        successful == s.successful && KeyOf(fm.files) == s.key && tested == s.tested
    {
      var ranges := Strategies.GenerateRanges(strategy, fm.files);
      successful := TryRanges(ranges);
    }

    /** Attempts the ranges in order, counting successes and skipping errors. */
    method TryRanges(ranges: seq<ChompRange>) returns (successful: nat)
      requires Valid()
      modifies this`tested, fm.files
      ensures Valid() && fm.files == old(fm.files)
      ensures var s := Run(old(KeyOf(fm.files)), old(Totals(fm.files)), command, disk, baseline, old(tested), ranges);
        successful == s.successful && KeyOf(fm.files) == s.key && tested == s.tested
    {
      ghost var totals := Totals(fm.files);
      ghost var target := Run(KeyOf(fm.files), totals, command, disk, baseline, tested, ranges);
      successful := 0;
      var k := 0;
      while k < |ranges|
        invariant 0 <= k <= |ranges|
        invariant Valid() && Totals(fm.files) == totals
        invariant var s := Run(KeyOf(fm.files), totals, command, disk, baseline, tested, ranges[k..]);
          successful + s.successful == target.successful && s.key == target.key && s.tested == target.tested
      {
        assert ranges[k..][1..] == ranges[k + 1..];
        var r := TryBlankRange(ranges[k]);
        if r == Ok(true) {
          successful := successful + 1;
        }
        k := k + 1;
      }
    }
  }

  /**
   * A sweep never reports more successes than its strategy proposed
   * ranges, and its memo only grows.
   */
  lemma ExecuteBounds(key: StateKey, totals: seq<nat>, command: Command, disk: Disk,
                      baseline: Option<RunResult>, tested: set<StateKey>, ranges: seq<ChompRange>)
    requires |totals| == |key|
    ensures Run(key, totals, command, disk, baseline, tested, ranges).successful <= |ranges|
    ensures tested <= Run(key, totals, command, disk, baseline, tested, ranges).tested
  {
    RunBounds(key, totals, command, disk, baseline, tested, ranges);
  }

  /**
   * The scenario of the source's test: one three-line file, a command with
   * constant output, a baseline, then bisection. The first range succeeds,
   * so the count is positive.
   */
  method ConstantCommandScenario(out: RunResult) returns (successful: nat)
    ensures successful == 1
  {
    var c := ScenarioSetup(out);
    ghost var files := c.fm.files;
    ghost var ranges := Strategies.Ranges(Strategies.BisectionS(Bisection.BisectionStrategy), files);
    ghost var sweep := Run(KeyOf(files), Totals(files), c.command, c.disk, c.baseline, c.tested, ranges);
    assert sweep.successful == 1 by {
      ScenarioSweep(files[0], c.command, c.disk, out);
    }
    successful := c.ExecuteStrategy(Strategies.BisectionS(Bisection.BisectionStrategy));
  }

  /** One fresh three-line file, a constant command that always runs, and its baseline. */
  method ScenarioSetup(out: RunResult) returns (c: Chomper)
    ensures fresh(c) && fresh(c.fm) && |c.fm.files| == 1 && fresh(c.fm.files[0])
    ensures c.fm.files == [c.fm.files[0]]
    ensures c.Valid() && |c.fm.files[0].originalLines| == 3 && c.fm.files[0].blanked == {}
    ensures (forall k :: c.command(k) == Some(out)) && (forall k :: c.disk(k))
    ensures c.baseline == Some(out) && c.tested == {}
  {
    var fm := ThreeLineManager();
    c := new Chomper(fm, _ => Some(out), _ => true);
    var b := c.EstablishBaseline();
  }

  /** The sweep of that scenario: bisection over a fresh three-line file succeeds once. */
  lemma {:induction false} ScenarioSweep(f: FileState, command: Command, disk: Disk, out: RunResult)
    requires f.Valid() && |f.originalLines| == 3 && f.blanked == {}
    requires forall k :: command(k) == Some(out)
    requires forall k :: disk(k)
    ensures Run(KeyOf([f]), Totals([f]), command, disk, Some(out), {},
                Strategies.Ranges(Strategies.BisectionS(Bisection.BisectionStrategy), [f])).successful == 1
  {
    ThreeLineBisection(f);
    assert FindPath(KeyOf([f]), f.path) == Some(0);
    ConstantCommandSucceedsOnce(KeyOf([f]), Totals([f]), command, disk, out, {},
      Strategies.Ranges(Strategies.BisectionS(Bisection.BisectionStrategy), [f]));
  }

  /** A fresh three-line file is bisected into its three single lines. */
  lemma ThreeLineBisection(f: FileState)
    requires |f.originalLines| == 3 && f.blanked == {}
    ensures Bisection.Ranges([f]) ==
      [ChompRange(f.path, 0, 1), ChompRange(f.path, 1, 2), ChompRange(f.path, 2, 3)]
  {
    FreshFileIndices(3);
    var nb := f.NonBlankLineIndices();
    assert nb == [0, 1, 2];
    assert [f][..0] == [];
    assert Bisection.Chunks(f.path, nb, 1, 2) == [ChompRange(f.path, 2, 3)];
    assert Bisection.Chunks(f.path, nb, 1, 1) == [ChompRange(f.path, 1, 2), ChompRange(f.path, 2, 3)];
  }
}
