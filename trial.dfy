/**
 * One chomp attempt, the logic that chompie/src/chomper.rs:59-101 and
 * chompie/src/bisector.rs:65-105 both spell out: consult the memo of tested
 * states, blank a range, write the files, run the command, compare with
 * the baseline, and unblank the whole range again on a mismatch.
 *
 * The command and the file writes are the environment: the command is an
 * oracle from the written state to a run result (None when it cannot be
 * launched), the disk an oracle telling whether writing a state succeeds.
 */
module Trials {
  import opened Wrappers
  import opened Files
  import opened ChompRanges
  import opened CommandRunner

  /** A file's part of the memo key: its path and its blanked set. */
  type FileKey = (string, set<nat>)

  /** The memo key of a whole state, one entry per tracked file, in order. */
  type StateKey = seq<FileKey>

  function KeyOf(files: seq<FileState>): (key: StateKey)
    reads files
    ensures |key| == |files|
    ensures forall i | 0 <= i < |files| :: key[i] == (files[i].path, files[i].blanked)
  {
    seq(|files|, i requires 0 <= i < |files| reads files => (files[i].path, files[i].blanked))
  }

  /** The line counts of the files, which never change. */
  function Totals(files: seq<FileState>): (ts: seq<nat>)
    ensures |ts| == |files|
    ensures forall i | 0 <= i < |files| :: ts[i] == |files[i].originalLines|
  {
    seq(|files|, i requires 0 <= i < |files| => |files[i].originalLines|)
  }

  type Command = StateKey -> Option<RunResult>
  type Disk = StateKey -> bool

  datatype ChompError = FileNotFound(path: string) | WriteFailed | LaunchFailed

  /** The indices start, start + 1, ..., end - 1 (none when start >= end). */
  function RangeLines(start: nat, end: nat): (lines: seq<nat>)
    ensures forall l: nat :: l in lines <==> start <= l < end
    decreases end - start
  {
    if start >= end then [] else [start] + RangeLines(start + 1, end)
  }

  /** The first entry of the key with the given path, as the file map finds it. */
  function FindPath(key: StateKey, path: string): (i: Option<nat>)
    ensures i.Some? ==> i.value < |key| && key[i.value].0 == path
    ensures i.Some? ==> forall j | 0 <= j < i.value :: key[j].0 != path
    ensures i.None? ==> forall j | 0 <= j < |key| :: key[j].0 != path
  {
    if |key| == 0 then None
    else if key[0].0 == path then Some(0)
    else match FindPath(key[1..], path)
      case None => None
      case Some(j) => Some(j + 1)
  }

  /** Looking a path up in the key finds the same file as looking it up in the files. */
  lemma FindPathOfKey(files: seq<FileState>, path: string)
    ensures FindPath(KeyOf(files), path) == PathIndex(files, path)
  {
    var a := FindPath(KeyOf(files), path);
    var b := PathIndex(files, path);
    if a.Some? && b.Some? {
      assert !(a.value < b.value) && !(b.value < a.value);
    }
  }

  /** The range's indices, clipped to the file, that blanking adds. */
  function Clipped(range: ChompRange, total: nat): set<nat>
  {
    set l | l in RangeLines(range.startLine, range.endLine) && l < total
  }

  /** Every index of the range, which unblanking removes. */
  function Whole(range: ChompRange): set<nat>
  {
    set l | l in RangeLines(range.startLine, range.endLine)
  }

  /** Entry i with the range blanked. */
  function BlankIn(key: StateKey, i: nat, range: ChompRange, total: nat): (k: StateKey)
    requires i < |key|
    ensures |k| == |key| && k[i].0 == key[i].0
    ensures k[i].1 == key[i].1 + Clipped(range, total)
    ensures forall j | 0 <= j < |key| && j != i :: k[j] == key[j]
  {
    key[i := (key[i].0, key[i].1 + Clipped(range, total))]
  }

  /** Entry i with every index of the range unblanked. */
  function UnblankIn(key: StateKey, i: nat, range: ChompRange): (k: StateKey)
    requires i < |key|
    ensures |k| == |key| && k[i].0 == key[i].0
    ensures k[i].1 == key[i].1 - Whole(range)
    ensures forall j | 0 <= j < |key| && j != i :: k[j] == key[j]
  {
    key[i := (key[i].0, key[i].1 - Whole(range))]
  }

  /** What an attempt returns, the state it leaves, and the memo afterwards. */
  datatype Trial = Trial(result: Result<bool, ChompError>, key: StateKey, tested: set<StateKey>)

  /**
   * One attempt from state `key`. A state already in the memo gives false
   * at once; an unknown file an error. Otherwise the range is blanked and
   * written; a failed write or launch is an error that leaves the range
   * blanked. A completed run records the blanked state in the memo; it is
   * a success iff there is a baseline identical to the run's result, and
   * otherwise the whole range is unblanked and written again.
   */
  function Attempt(key: StateKey, totals: seq<nat>, command: Command, disk: Disk,
                   baseline: Option<RunResult>, tested: set<StateKey>, range: ChompRange): (t: Trial)
    requires |totals| == |key|
    ensures |t.key| == |key|
  {
    if key in tested then Trial(Ok(false), key, tested)
    else match FindPath(key, range.file)
      case None => Trial(Err(FileNotFound(range.file)), key, tested)
      case Some(i) =>
        var blanked := BlankIn(key, i, range, totals[i]);
        if !disk(blanked) then Trial(Err(WriteFailed), blanked, tested)
        else match command(blanked)
          case None => Trial(Err(LaunchFailed), blanked, tested)
          case Some(result) =>
            var tested' := tested + {blanked};
            var matches := if baseline.Some? then IsIdentical(result, baseline.value) else false;
            if matches then Trial(Ok(true), blanked, tested')
            else
              var reverted := UnblankIn(blanked, i, range);
              if disk(reverted) then Trial(Ok(false), reverted, tested')
              else Trial(Err(WriteFailed), reverted, tested')
  }

  /** Blanks the range in file i of the manager. */
  method BlankAt(fm: FileManager, i: nat, range: ChompRange, lines: seq<nat>)
    requires fm.Valid() && i < |fm.files|
    requires forall l: nat :: l in lines <==> range.startLine <= l < range.endLine
    modifies fm.files[i]
    ensures fm.Valid()
    ensures KeyOf(fm.files) == BlankIn(old(KeyOf(fm.files)), i, range, |fm.files[i].originalLines|)
  {
    ghost var before := KeyOf(fm.files);
    var f := fm.files[i];
    f.BlankLines(lines);
    assert f.blanked == before[i].1 + Clipped(range, |f.originalLines|);
    forall j | 0 <= j < |fm.files| && j != i
      ensures fm.files[j].blanked == before[j].1
    {
      assert fm.files[j].path != f.path;
    }
    assert KeyOf(fm.files) == BlankIn(before, i, range, |f.originalLines|);
  }

  /** Unblanks every index of the range in file i of the manager. */
  method UnblankAt(fm: FileManager, i: nat, range: ChompRange, lines: seq<nat>)
    requires fm.Valid() && i < |fm.files|
    requires forall l: nat :: l in lines <==> range.startLine <= l < range.endLine
    modifies fm.files[i]
    ensures fm.Valid()
    ensures KeyOf(fm.files) == UnblankIn(old(KeyOf(fm.files)), i, range)
  {
    ghost var before := KeyOf(fm.files);
    var f := fm.files[i];
    f.UnblankLines(lines);
    assert f.blanked == before[i].1 - Whole(range);
    forall j | 0 <= j < |fm.files| && j != i
      ensures fm.files[j].blanked == before[j].1
    {
      assert fm.files[j].path != f.path;
    }
    assert KeyOf(fm.files) == UnblankIn(before, i, range);
  }

  /** The attempt on the live file states; the new state and memo are those of Attempt. */
  method TryBlank(fm: FileManager, command: Command, disk: Disk, baseline: Option<RunResult>,
                  tested: set<StateKey>, range: ChompRange)
    returns (r: Result<bool, ChompError>, tested': set<StateKey>)
    requires fm.Valid()
    modifies fm.files
    ensures fm.Valid()
    ensures var t := Attempt(old(KeyOf(fm.files)), Totals(fm.files), command, disk, baseline, tested, range);
      r == t.result && KeyOf(fm.files) == t.key && tested' == t.tested
  {
    ghost var key := KeyOf(fm.files);
    ghost var totals := Totals(fm.files);
    tested' := tested;
    if KeyOf(fm.files) in tested {
      return Ok(false), tested';
    }
    var lines := RangeLines(range.startLine, range.endLine);
    FindPathOfKey(fm.files, range.file);
    var found := fm.GetFileMut(range.file);
    if found.None? {
      return Err(FileNotFound(range.file)), tested';
    }
    var i := PathIndex(fm.files, range.file).value;
    BlankAt(fm, i, range, lines);
    if !disk(KeyOf(fm.files)) {
      return Err(WriteFailed), tested';
    }
    var result := command(KeyOf(fm.files));
    if result.None? {
      return Err(LaunchFailed), tested';
    }
    tested' := tested + {KeyOf(fm.files)};
    var matches := if baseline.Some? then IsIdentical(result.value, baseline.value) else false;
    if !matches {
      UnblankAt(fm, i, range, lines);
      if !disk(KeyOf(fm.files)) {
        return Err(WriteFailed), tested';
      }
    }
    r := Ok(matches);
  }

  // ---------------------------------------------------------------------
  // What one attempt does
  // ---------------------------------------------------------------------

  /** With no baseline an attempt never succeeds. */
  lemma NoBaselineNeverSucceeds(key: StateKey, totals: seq<nat>, command: Command, disk: Disk,
                                tested: set<StateKey>, range: ChompRange)
    requires |totals| == |key|
    ensures Attempt(key, totals, command, disk, None, tested, range).result != Ok(true)
  {
  }

  /**
   * An attempt succeeds exactly when the state is untested, the file is
   * known, the blanked state is written, and the command's result on it
   * equals the baseline.
   */
  lemma SuccessIffIdentical(key: StateKey, totals: seq<nat>, command: Command, disk: Disk,
                            baseline: Option<RunResult>, tested: set<StateKey>, range: ChompRange)
    requires |totals| == |key|
    ensures Attempt(key, totals, command, disk, baseline, tested, range).result == Ok(true) <==>
      key !in tested && FindPath(key, range.file).Some? &&
      var i := FindPath(key, range.file).value;
      disk(BlankIn(key, i, range, totals[i])) && baseline.Some? &&
      command(BlankIn(key, i, range, totals[i])) == Some(baseline.value)
  {
  }

  /**
   * Memo hits and unknown files change nothing. Any other attempt leaves
   * every other file alone; a success keeps file i's old blanked lines plus
   * the range clipped to the file, while a completed failure removes the
   * whole range from them, including lines blanked before the call.
   */
  lemma AttemptEffect(key: StateKey, totals: seq<nat>, command: Command, disk: Disk,
                      baseline: Option<RunResult>, tested: set<StateKey>, range: ChompRange)
    requires |totals| == |key|
    ensures var t := Attempt(key, totals, command, disk, baseline, tested, range);
      (key in tested ==> t == Trial(Ok(false), key, tested)) &&
      (key !in tested && FindPath(key, range.file).None? ==>
        t == Trial(Err(FileNotFound(range.file)), key, tested))
    ensures var t := Attempt(key, totals, command, disk, baseline, tested, range);
      key !in tested && FindPath(key, range.file).Some? ==>
      var i := FindPath(key, range.file).value;
      (forall j | 0 <= j < |key| && j != i :: t.key[j] == key[j]) &&
      t.key[i].0 == key[i].0 &&
      (t.result == Ok(true) ==> t.key[i].1 == key[i].1 + Clipped(range, totals[i])) &&
      (t.result == Ok(false) ==> t.key[i].1 == key[i].1 - Whole(range))
  {
    var t := Attempt(key, totals, command, disk, baseline, tested, range);
    if key !in tested && FindPath(key, range.file).Some? {
      var i := FindPath(key, range.file).value;
      if t.result == Ok(false) {
        assert t.key[i].1 == (key[i].1 + Clipped(range, totals[i])) - Whole(range);
        assert Clipped(range, totals[i]) <= Whole(range);
      }
    }
  }

  /**
   * The memo only grows, by at most the one blanked state; a launch
   * failure records nothing.
   */
  lemma MemoGrowth(key: StateKey, totals: seq<nat>, command: Command, disk: Disk,
                   baseline: Option<RunResult>, tested: set<StateKey>, range: ChompRange)
    requires |totals| == |key|
    ensures var t := Attempt(key, totals, command, disk, baseline, tested, range);
      tested <= t.tested && |t.tested| <= |tested| + 1 &&
      (t.result == Err(LaunchFailed) ==> t.tested == tested) &&
      (t.tested != tested ==>
        (key !in tested && FindPath(key, range.file).Some? &&
         t.tested == tested + {BlankIn(key, FindPath(key, range.file).value, range, totals[FindPath(key, range.file).value])}))
  {
    var t := Attempt(key, totals, command, disk, baseline, tested, range);
    if t.tested != tested {
      var i := FindPath(key, range.file).value;
      var b := BlankIn(key, i, range, totals[i]);
      assert t.tested == tested + {b};
      assert |tested + {b}| <= |tested| + 1;
    }
  }

  /**
   * The memo is consulted before blanking and written after it, so right
   * after a success the state is its own recorded key: the next attempt,
   * whatever its range, returns false and changes nothing.
   */
  lemma NextAfterSuccessIsMemoHit(key: StateKey, totals: seq<nat>, command: Command, disk: Disk,
                                  baseline: Option<RunResult>, tested: set<StateKey>,
                                  first: ChompRange, next: ChompRange)
    requires |totals| == |key|
    requires Attempt(key, totals, command, disk, baseline, tested, first).result == Ok(true)
    ensures var t := Attempt(key, totals, command, disk, baseline, tested, first);
      Attempt(t.key, totals, command, disk, baseline, t.tested, next) == Trial(Ok(false), t.key, t.tested)
  {
    var t := Attempt(key, totals, command, disk, baseline, tested, first);
    assert t.key in t.tested;
  }

  /**
   * With a command whose output never changes, a baseline equal to it and
   * writes that succeed, an untested state and a known file give success.
   */
  lemma ConstantCommandSucceeds(key: StateKey, totals: seq<nat>, command: Command, disk: Disk, out: RunResult,
                                tested: set<StateKey>, range: ChompRange)
    requires |totals| == |key|
    requires forall k :: command(k) == Some(out)
    requires forall k :: disk(k)
    requires key !in tested && FindPath(key, range.file).Some?
    ensures Attempt(key, totals, command, disk, Some(out), tested, range).result == Ok(true)
  {
  }

  /**
   * Reverting is not an exact undo: line 1, blanked by an earlier success,
   * comes back when an overlapping attempt [0, 3) fails.
   */
  lemma RevertUndoesEarlierCommit(out: RunResult, other: RunResult)
    requires out != other
    ensures var key := [("a.rs", {1})];
      var t := Attempt(key, [3], _ => Some(other), _ => true, Some(out), {}, ChompRange("a.rs", 0, 3));
      t.result == Ok(false) && t.key == [("a.rs", {})]
  {
    var key := [("a.rs", {1})];
    assert FindPath(key, "a.rs") == Some(0);
    var r := ChompRange("a.rs", 0, 3);
    assert Clipped(r, 3) == {0, 1, 2} by {
      forall l: nat | l in Clipped(r, 3) ensures l in {0, 1, 2} {
      }
    }
    assert ({1} + {0, 1, 2}) - Whole(r) == {} by {
      forall l: nat | l in ({1} + {0, 1, 2}) ensures l in Whole(r) {
      }
    }
  }

  // ---------------------------------------------------------------------
  // A strategy's ranges, attempted in order
  // ---------------------------------------------------------------------

  /** The successes counted, the final state and the final memo. */
  datatype Sweep = Sweep(successful: nat, key: StateKey, tested: set<StateKey>)

  /** Attempts the ranges in order, counting the successes and ignoring errors. */
  function Run(key: StateKey, totals: seq<nat>, command: Command, disk: Disk,
               baseline: Option<RunResult>, tested: set<StateKey>, ranges: seq<ChompRange>): (s: Sweep)
    requires |totals| == |key|
    ensures |s.key| == |key|
    decreases |ranges|
  {
    if ranges == [] then Sweep(0, key, tested)
    else
      var t := Attempt(key, totals, command, disk, baseline, tested, ranges[0]);
      var rest := Run(t.key, totals, command, disk, baseline, t.tested, ranges[1..]);
      Sweep(rest.successful + (if t.result == Ok(true) then 1 else 0), rest.key, rest.tested)
  }

  /**
   * At most one success per range, a memo that only grows, and each range
   * adds at most one memo entry.
   */
  lemma {:induction false} RunBounds(key: StateKey, totals: seq<nat>, command: Command, disk: Disk,
                                     baseline: Option<RunResult>, tested: set<StateKey>, ranges: seq<ChompRange>)
    requires |totals| == |key|
    ensures var s := Run(key, totals, command, disk, baseline, tested, ranges);
      s.successful <= |ranges| && tested <= s.tested && |s.tested| <= |tested| + |ranges|
    decreases |ranges|
  {
    if ranges != [] {
      var t := Attempt(key, totals, command, disk, baseline, tested, ranges[0]);
      MemoGrowth(key, totals, command, disk, baseline, tested, ranges[0]);
      RunBounds(t.key, totals, command, disk, baseline, t.tested, ranges[1..]);
    }
  }

  /**
   * Once a sweep has had a success, every later range is a memo hit until a
   * failing attempt moves the state; from an untested start with a
   * constant command only the first range can succeed.
   */
  lemma {:induction false} ConstantCommandSucceedsOnce(key: StateKey, totals: seq<nat>, command: Command, disk: Disk, out: RunResult,
                                    tested: set<StateKey>, ranges: seq<ChompRange>)
    requires |totals| == |key|
    requires forall k :: command(k) == Some(out)
    requires forall k :: disk(k)
    requires key !in tested && |ranges| > 0 && FindPath(key, ranges[0].file).Some?
    ensures Run(key, totals, command, disk, Some(out), tested, ranges).successful == 1
  {
    var t := Attempt(key, totals, command, disk, Some(out), tested, ranges[0]);
    ConstantCommandSucceeds(key, totals, command, disk, out, tested, ranges[0]);
    NextAfterSuccessIsMemoHit(key, totals, command, disk, Some(out), tested, ranges[0], ranges[0]);
    MemoHitsThroughout(t.key, totals, command, disk, Some(out), t.tested, ranges[1..]);
  }

  /** From a state already in the memo, a sweep changes nothing and succeeds nowhere. */
  lemma {:induction false} MemoHitsThroughout(key: StateKey, totals: seq<nat>, command: Command, disk: Disk,
                                              baseline: Option<RunResult>, tested: set<StateKey>, ranges: seq<ChompRange>)
    requires |totals| == |key| && key in tested
    ensures Run(key, totals, command, disk, baseline, tested, ranges) == Sweep(0, key, tested)
    decreases |ranges|
  {
    if ranges != [] {
      MemoHitsThroughout(key, totals, command, disk, baseline, tested, ranges[1..]);
    }
  }
}
