/**
 * Per-file line state and the collection of tracked files
 * (chompie/src/file_manager.rs).
 *
 * A file's original lines never change; chomping only records which
 * 0-based line indices are blanked.
 */
module Files {
  import opened Wrappers

  /** Strictly ascending sequence of indices. */
  ghost predicate Increasing(s: seq<nat>)
  {
    forall i, j | 0 <= i < j < |s| :: s[i] < s[j]
  }

  // ---------------------------------------------------------------------
  // Text: splitting content into lines and joining lines back.
  // ---------------------------------------------------------------------

  /** Position of the first newline of `s`. */
  function NewlineIndex(s: string): (i: nat)
    requires '\n' in s
    ensures i < |s| && s[i] == '\n' && '\n' !in s[..i]
  {
    if s[0] == '\n' then 0
    else
      assert '\n' in s[1..] by {
        var k :| 0 <= k < |s| && s[k] == '\n';
        assert s[1..][k - 1] == '\n';
      }
      var j := NewlineIndex(s[1..]);
      assert s[..j + 1] == [s[0]] + s[1..][..j];
      j + 1
  }

  /** The pieces of `s` between newlines; the empty string is one empty piece. */
  function Split(s: string): (parts: seq<string>)
    ensures |parts| >= 1
    ensures forall k | 0 <= k < |parts| :: '\n' !in parts[k]
    decreases |s|
  {
    if '\n' in s then
      var i := NewlineIndex(s);
      [s[..i]] + Split(s[i + 1..])
    else [s]
  }

  /** The lines separated by single newlines, as `join("\n")` does. */
  function Join(lines: seq<string>): string
  {
    if |lines| == 0 then ""
    else if |lines| == 1 then lines[0]
    else lines[0] + "\n" + Join(lines[1..])
  }

  /**
   * Rust's `str::lines()` for content without carriage returns: the
   * newline-separated pieces, where a final newline ends the last line
   * instead of starting an empty one, and empty content has no lines.
   */
  function Lines(content: string): (lines: seq<string>)
    ensures forall k | 0 <= k < |lines| :: '\n' !in lines[k]
  {
    if content == "" then []
    else
      var parts := Split(content);
      if parts[|parts| - 1] == "" then parts[..|parts| - 1] else parts
  }

  lemma NewlineAfterPrefix(a: string, b: string)
    requires '\n' !in a
    ensures NewlineIndex(a + "\n" + b) == |a|
  {
    var s := a + "\n" + b;
    var i := NewlineIndex(s);
    assert s[|a|] == '\n';
    assert forall k | 0 <= k < |a| :: s[k] == a[k];
  }

  /** Joining the pieces of a split gives the text back. */
  lemma {:induction false} JoinSplit(s: string)
    ensures Join(Split(s)) == s
    decreases |s|
  {
    if '\n' in s {
      var i := NewlineIndex(s);
      JoinSplit(s[i + 1..]);
      JoinSplitStep(s);
      assert s == s[..i] + "\n" + s[i + 1..];
    }
  }

  /** Joining a split text restores the first newline and joins the rest. */
  lemma JoinSplitStep(s: string)
    requires '\n' in s
    ensures Join(Split(s)) == s[..NewlineIndex(s)] + "\n" + Join(Split(s[NewlineIndex(s) + 1..]))
  {
    var i := NewlineIndex(s);
    var tail := Split(s[i + 1..]);
    assert Split(s) == [s[..i]] + tail;
    assert Split(s)[1..] == tail;
  }

  /** Splitting joined newline-free lines gives the lines back. */
  lemma {:induction false} SplitJoin(lines: seq<string>)
    requires |lines| >= 1
    requires forall k | 0 <= k < |lines| :: '\n' !in lines[k]
    ensures Split(Join(lines)) == lines
  {
    if |lines| > 1 {
      SplitJoinStep(lines);
      SplitJoin(lines[1..]);
      assert lines == [lines[0]] + lines[1..];
    }
  }

  /** The first split of joined lines is the first line; the rest is the join of the others. */
  lemma SplitJoinStep(lines: seq<string>)
    requires |lines| > 1 && '\n' !in lines[0]
    ensures Split(Join(lines)) == [lines[0]] + Split(Join(lines[1..]))
  {
    var rest := Join(lines[1..]);
    var i := |lines[0]|;
    var s := Join(lines);
    assert s == lines[0] + "\n" + rest;
    NewlineAfterPrefix(lines[0], rest);
    assert s[i] == '\n';
    assert s[..i] == lines[0];
    assert s[i + 1..] == rest;
  }

  lemma {:induction false} JoinDropEmptyLast(parts: seq<string>)
    requires |parts| >= 2 && parts[|parts| - 1] == ""
    ensures Join(parts[..|parts| - 1]) + "\n" == Join(parts)
  {
    if |parts| > 2 {
      JoinDropEmptyLast(parts[1..]);
      assert parts[1..][..|parts| - 2] == parts[..|parts| - 1][1..];
    }
  }

  /**
   * Writing the lines back joined by newlines reproduces the content,
   * except for one trailing newline, which `lines()` drops.
   */
  lemma LinesJoin(content: string)
    ensures Join(Lines(content)) + (if content != "" && content[|content| - 1] == '\n' then "\n" else "") == content
  {
    if content != "" {
      var parts := Split(content);
      JoinSplit(content);
      if parts[|parts| - 1] == "" {
        if |parts| > 1 {
          JoinDropEmptyLast(parts);
          LastOfJoinIsNewline(parts);
        }
      } else {
        LastOfJoinNotNewline(parts);
      }
    }
  }

  lemma {:induction false} LastOfJoinIsNewline(parts: seq<string>)
    requires |parts| >= 2 && parts[|parts| - 1] == ""
    ensures |Join(parts)| > 0 && Join(parts)[|Join(parts)| - 1] == '\n'
  {
    JoinDropEmptyLast(parts);
  }

  lemma {:induction false} LastOfJoinNotNewline(parts: seq<string>)
    requires |parts| >= 1 && parts[|parts| - 1] != ""
    requires forall k | 0 <= k < |parts| :: '\n' !in parts[k]
    ensures |Join(parts)| > 0 && Join(parts)[|Join(parts)| - 1] != '\n'
  {
    if |parts| > 1 {
      LastOfJoinNotNewline(parts[1..]);
      var j := Join(parts[1..]);
      assert Join(parts) == parts[0] + "\n" + j;
      assert Join(parts)[|Join(parts)| - 1] == j[|j| - 1];
    } else {
      var p := parts[0];
      assert p[|p| - 1] in p;
    }
  }

  // ---------------------------------------------------------------------
  // Blanked-index views.
  // ---------------------------------------------------------------------

  /** The indices in [0, n) that are not blanked, in ascending order. */
  function Unblanked(n: nat, blanked: set<nat>): (nb: seq<nat>)
    ensures forall i: nat :: i in nb <==> i < n && i !in blanked
  {
    if n == 0 then []
    else
      var prefix := Unblanked(n - 1, blanked);
      var last := if n - 1 in blanked then [] else [n - 1];
      assert forall k | 0 <= k < |prefix| :: prefix[k] < n - 1 by {
        forall k | 0 <= k < |prefix| ensures prefix[k] < n - 1 {
          assert prefix[k] in prefix;
        }
      }
      prefix + last
  }

  /** The non-blank indices come in ascending order. */
  lemma {:induction false} UnblankedIncreasing(n: nat, blanked: set<nat>)
    ensures Increasing(Unblanked(n, blanked))
  {
    if n > 0 {
      var prefix := Unblanked(n - 1, blanked);
      UnblankedIncreasing(n - 1, blanked);
      forall k | 0 <= k < |prefix| ensures prefix[k] < n - 1 {
        assert prefix[k] in prefix;
      }
    }
  }

  /** The blanked indices below n. */
  function BlankedBelow(n: nat, blanked: set<nat>): set<nat>
  {
    set i | i in blanked && i < n
  }

  /** Every index below n is either listed as non-blank or blanked. */
  lemma {:induction false} UnblankedCount(n: nat, blanked: set<nat>)
    ensures |Unblanked(n, blanked)| + |BlankedBelow(n, blanked)| == n
  {
    if n > 0 {
      UnblankedCount(n - 1, blanked);
      BlankedBelowStep(n, blanked);
    }
  }

  /** Raising the bound by one adds n - 1 to the blanked indices below it exactly when it is blanked. */
  lemma BlankedBelowStep(n: nat, blanked: set<nat>)
    requires n > 0
    ensures |BlankedBelow(n, blanked)| == |BlankedBelow(n - 1, blanked)| + (if n - 1 in blanked then 1 else 0)
  {
    if n - 1 in blanked {
      assert BlankedBelow(n, blanked) == BlankedBelow(n - 1, blanked) + {n - 1};
    } else {
      assert BlankedBelow(n, blanked) == BlankedBelow(n - 1, blanked);
    }
  }

  /** The lines as they are written out: blanked ones replaced by "". */
  function Shown(lines: seq<string>, blanked: set<nat>): (shown: seq<string>)
    ensures |shown| == |lines|
  {
    seq(|lines|, i requires 0 <= i < |lines| => if i in blanked then "" else lines[i])
  }

  // ---------------------------------------------------------------------
  // FileState
  // ---------------------------------------------------------------------

  class FileState {
    const path: string
    const originalLines: seq<string>
    var blanked: set<nat>

    /** Blanked indices stay within the file; lines hold no newline. */
    ghost predicate Valid()
      reads this
    {
      (forall i | i in blanked :: i < |originalLines|) &&
      (forall k | 0 <= k < |originalLines| :: '\n' !in originalLines[k])
    }

    constructor (path: string, content: string)
      ensures this.path == path && originalLines == Lines(content) && blanked == {}
      ensures Valid()
    {
      this.path := path;
      originalLines := Lines(content);
      blanked := {};
    }

    function TotalLines(): nat
    {
      |originalLines|
    }

    /** Blanks each listed index inside the file and ignores the rest. */
    method BlankLines(lines: seq<nat>)
      requires Valid()
      modifies this
      ensures Valid()
      ensures blanked == old(blanked) + (set l | l in lines && l < |originalLines|)
      ensures (forall l | l in lines && l < |originalLines| :: l in old(blanked)) ==> blanked == old(blanked)
    {
      var k := 0;
      while k < |lines|
        invariant 0 <= k <= |lines|
        invariant blanked == old(blanked) + (set l | l in lines[..k] && l < |originalLines|)
      {
        assert lines[..k + 1] == lines[..k] + [lines[k]];
        if lines[k] < |originalLines| {
          blanked := blanked + {lines[k]};
        }
        k := k + 1;
      }
      assert lines[..k] == lines;
    }

    /** Removes exactly the listed indices from the blanked set. */
    method UnblankLines(lines: seq<nat>)
      requires Valid()
      modifies this
      ensures Valid()
      ensures blanked == old(blanked) - (set l | l in lines)
    {
      var k := 0;
      while k < |lines|
        invariant 0 <= k <= |lines|
        invariant blanked == old(blanked) - (set l | l in lines[..k])
      {
        assert lines[..k + 1] == lines[..k] + [lines[k]];
        blanked := blanked - {lines[k]};
        k := k + 1;
      }
      assert lines[..k] == lines;
    }

    /** The content written to disk: blanked lines empty, joined by newlines. */
    function CurrentContent(): (s: string)
      reads this
      ensures Valid() && |originalLines| > 0 ==> Split(s) == Shown(originalLines, blanked)
    {
      ShownRoundTrip(originalLines, blanked);
      Join(Shown(originalLines, blanked))
    }

    function NonBlankLineIndices(): (nb: seq<nat>)
      reads this
      ensures forall i: nat :: i in nb <==> i < |originalLines| && i !in blanked
    {
      Unblanked(|originalLines|, blanked)
    }

    /** Number of lines minus number of blanked lines; never underflows. */
    function NonBlankLines(): (n: nat)
      requires Valid()
      reads this
      ensures n == |NonBlankLineIndices()|
      ensures n <= |originalLines|
    {
      UnblankedCount(|originalLines|, blanked);
      assert BlankedBelow(|originalLines|, blanked) == blanked;
      |originalLines| - |blanked|
    }
  }

  /** A file's non-blank indices are ascending. */
  lemma NonBlankIncreasing(f: FileState)
    ensures Increasing(f.NonBlankLineIndices())
  {
    UnblankedIncreasing(|f.originalLines|, f.blanked);
  }

  /** Newline-free lines, shown and joined, split back into the shown lines. */
  lemma ShownRoundTrip(lines: seq<string>, blanked: set<nat>)
    ensures |lines| > 0 && (forall k | 0 <= k < |lines| :: '\n' !in lines[k]) ==>
      Split(Join(Shown(lines, blanked))) == Shown(lines, blanked)
  {
    if |lines| > 0 && forall k | 0 <= k < |lines| :: '\n' !in lines[k] {
      SplitJoin(Shown(lines, blanked));
    }
  }

  /** The written content splits back into exactly the shown lines. */
  lemma ContentSplitsIntoShownLines(f: FileState)
    requires f.Valid() && |f.originalLines| > 0
    ensures Split(f.CurrentContent()) == Shown(f.originalLines, f.blanked)
    ensures forall i | 0 <= i < |f.originalLines| ::
      Shown(f.originalLines, f.blanked)[i] == (if i in f.blanked then "" else f.originalLines[i])
  {
    SplitJoin(Shown(f.originalLines, f.blanked));
  }

  /** Blanking 0 and 2 of line1..line4 writes "\nline2\n\nline4". */
  lemma ContentExample()
    ensures Join(Shown(["line1", "line2", "line3", "line4"], {0, 2})) == "\nline2\n\nline4"
  {
    assert Shown(["line1", "line2", "line3", "line4"], {0, 2}) == ["", "line2", "", "line4"];
  }

  /** The sets of that scenario: all three lines blanked, then line 1 removed. */
  lemma UnblankOneSets()
    ensures (set l: nat | l in [0, 1, 2] && l < 3) == {0, 1, 2}
    ensures {} + {0, 1, 2} - (set l: nat | l in [1]) == {0, 2} && |{0, 2}| == 2
  {
    assert forall l: nat :: l in [0, 1, 2] && l < 3 <==> l in {0, 1, 2};
    assert forall l: nat :: l in [1] <==> l == 1;
  }

  /** Blanking 1 of line1..line3 writes "line1\n\nline3". */
  lemma MiddleExample()
    ensures Join(Shown(["line1", "line2", "line3"], {1})) == "line1\n\nline3"
  {
    assert Shown(["line1", "line2", "line3"], {1}) == ["line1", "", "line3"];
  }

  ghost predicate AllValid(files: seq<FileState>)
    reads files
  {
    forall k | 0 <= k < |files| :: files[k].Valid()
  }

  /** Index of the file with the given path, if any; the first one. */
  function PathIndex(files: seq<FileState>, path: string): (i: Option<nat>)
    ensures i.Some? ==> i.value < |files| && files[i.value].path == path
    ensures i.Some? ==> forall j | 0 <= j < i.value :: files[j].path != path
    ensures i.None? ==> forall j | 0 <= j < |files| :: files[j].path != path
  {
    if |files| == 0 then None
    else if files[0].path == path then Some(0)
    else match PathIndex(files[1..], path)
      case None => None
      case Some(j) => Some(j + 1)
  }

  function SumTotalLines(files: seq<FileState>): nat
  {
    if files == [] then 0
    else SumTotalLines(files[..|files| - 1]) + |files[|files| - 1].originalLines|
  }

  function SumNonBlankLines(files: seq<FileState>): nat
    requires AllValid(files)
    reads files
  {
    if files == [] then 0
    else SumNonBlankLines(files[..|files| - 1]) + files[|files| - 1].NonBlankLines()
  }

  /** Across all files, the non-blank count never exceeds the line count. */
  lemma {:induction false} NonBlankAtMostTotal(files: seq<FileState>)
    requires AllValid(files)
    ensures SumNonBlankLines(files) <= SumTotalLines(files)
  {
    if files != [] {
      NonBlankAtMostTotal(files[..|files| - 1]);
    }
  }

  // ---------------------------------------------------------------------
  // FileManager
  // ---------------------------------------------------------------------

  class FileManager {
    var files: seq<FileState>

    /** Every file is valid and paths are distinct (they are map keys). */
    ghost predicate Valid()
      reads this, files
    {
      AllValid(files) &&
      forall j, k | 0 <= j < k < |files| :: files[j].path != files[k].path
    }

    constructor ()
      ensures Valid() && files == []
    {
      files := [];
    }

    /**
     * Tracks a file with the given content, replacing the state of a file
     * already tracked under the same path.
     */
    method AddFileFromContent(path: string, content: string)
      requires Valid()
      modifies this
      ensures Valid()
      ensures |files| >= 1
      ensures match PathIndex(old(files), path)
        case Some(i) => |files| == |old(files)| && files[i].path == path && fresh(files[i]) &&
                        forall j | 0 <= j < |files| && j != i :: files[j] == old(files)[j]
        case None => |files| == |old(files)| + 1 && files[..|old(files)|] == old(files) &&
                     fresh(files[|old(files)|]) && files[|old(files)|].path == path
      ensures exists k | 0 <= k < |files| ::
        (files[k].path == path && files[k].originalLines == Lines(content) && files[k].blanked == {})
    {
      var f := new FileState(path, content);
      match PathIndex(files, path)
      case Some(i) =>
        files := files[i := f];
      case None =>
        files := files + [f];
    }

    /** The state stored under the path: present iff some file has the path, and then a file with that path. */
    function GetFileMut(path: string): (f: Option<FileState>)
      reads this
      ensures f.Some? <==> exists k | 0 <= k < |files| :: files[k].path == path
      ensures f.Some? ==> f.value in files && f.value.path == path
    {
      match PathIndex(files, path)
      case Some(i) => Some(files[i])
      case None => None
    }

    function TotalLines(): nat
      reads this
    {
      SumTotalLines(files)
    }

    function NonBlankLines(): (n: nat)
      requires Valid()
      reads this, files
      ensures n <= TotalLines()
    {
      NonBlankAtMostTotal(files);
      SumNonBlankLines(files)
    }
  }

  /** Paths are distinct in a valid manager, so the file found under a path is the one stored there. */
  lemma GetFileUnique(fm: FileManager, path: string, k: nat)
    requires fm.Valid() && k < |fm.files| && fm.files[k].path == path
    ensures fm.GetFileMut(path) == Some(fm.files[k])
  {
    var f := fm.GetFileMut(path);
    assert f.Some?;
    var i :| 0 <= i < |fm.files| && fm.files[i] == f.value;
    assert i == k;
  }

  /** A manager tracking one fresh file "test.txt" of three lines. */
  method ThreeLineManager() returns (fm: FileManager)
    ensures fresh(fm) && fm.Valid() && |fm.files| == 1 && fresh(fm.files[0])
    ensures fm.files[0].path == "test.txt" && fm.files[0].blanked == {}
    ensures fm.files[0].originalLines == ["line1", "line2", "line3"]
  {
    fm := new FileManager();
    assert PathIndex(fm.files, "test.txt") == None;
    fm.AddFileFromContent("test.txt", "line1\nline2\nline3");
    assert fm.files == [fm.files[0]];
    LinesOfThree();
  }

  /** The state of "test.txt" read with content "line1\nline2\nline3". */
  method FreshThreeLines() returns (f: FileState)
    ensures fresh(f) && f.Valid() && f.path == "test.txt" && f.blanked == {}
    ensures f.originalLines == ["line1", "line2", "line3"]
  {
    f := new FileState("test.txt", "line1\nline2\nline3");
    LinesOfThree();
  }

  /** The state of "test.txt" read with content "line1\nline2\nline3\nline4". */
  method FreshFourLines() returns (f: FileState)
    ensures fresh(f) && f.Valid() && f.path == "test.txt" && f.blanked == {}
    ensures f.originalLines == ["line1", "line2", "line3", "line4"]
  {
    f := new FileState("test.txt", "line1\nline2\nline3\nline4");
    LinesOfFour();
  }

  /** A fresh three-line file has 3 lines, all non-blank. */
  method FreshFileCounts() returns (total: nat, nonBlank: nat)
    ensures total == 3 && nonBlank == 3
  {
    var f := FreshThreeLines();
    total := f.TotalLines();
    nonBlank := f.NonBlankLines();
  }

  /** Blanking 0 and 2 of four lines leaves 2 non-blank and writes "\nline2\n\nline4". */
  method BlankTwoOfFour() returns (nonBlank: nat, written: string)
    ensures nonBlank == 2 && written == "\nline2\n\nline4"
  {
    var g := FreshFourLines();
    BlankZeroAndTwo(g);
    nonBlank := g.NonBlankLines();
    assert nonBlank == 4 - |{0, 2}| == 2;
    ContentExample();
    written := g.CurrentContent();
  }

  /** Blanks lines 0 and 2 of a fresh four-line file. */
  method BlankZeroAndTwo(g: FileState)
    requires g.Valid() && |g.originalLines| == 4 && g.blanked == {}
    modifies g
    ensures g.Valid() && g.blanked == {0, 2}
  {
    g.BlankLines([0, 2]);
    assert forall l: nat :: l in [0, 2] && l < 4 <==> l in {0, 2};
  }

  /** Blanking all three lines, then unblanking line 1, leaves 1 non-blank line. */
  method UnblankOne() returns (nonBlank: nat)
    ensures nonBlank == 1
  {
    var h := FreshThreeLines();
    BlankAllUnblankMiddle(h);
    nonBlank := h.NonBlankLines();
  }

  /** Blanks lines 0..2 of a fresh three-line file, then unblanks line 1. */
  method BlankAllUnblankMiddle(h: FileState)
    requires h.Valid() && |h.originalLines| == 3 && h.blanked == {}
    modifies h
    ensures h.Valid() && |h.originalLines| == 3 && h.blanked == {0, 2}
  {
    UnblankOneSets();
    h.BlankLines([0, 1, 2]);
    h.UnblankLines([1]);
  }

  /** Blanking line 1 of three writes "line1\n\nline3". */
  method BlankMiddle() returns (written: string)
    ensures written == "line1\n\nline3"
  {
    var k := FreshThreeLines();
    k.BlankLines([1]);
    assert k.blanked == {1};
    MiddleExample();
    written := k.CurrentContent();
  }

  lemma LinesOfThree()
    ensures Lines("line1\nline2\nline3") == ["line1", "line2", "line3"]
  {
    var ls := ["line1", "line2", "line3"];
    JoinOfThree();
    SplitJoin(ls);
    assert Split("line1\nline2\nline3")[2] == "line3";
  }

  lemma JoinOfThree()
    ensures Join(["line1", "line2", "line3"]) == "line1\nline2\nline3"
  {
    var ls := ["line1", "line2", "line3"];
    assert ls[1..] == ["line2", "line3"];
    assert Join(ls[1..]) == "line2\nline3";
  }

  lemma LinesOfFour()
    ensures Lines("line1\nline2\nline3\nline4") == ["line1", "line2", "line3", "line4"]
  {
    var ls := ["line1", "line2", "line3", "line4"];
    JoinOfFour();
    SplitJoin(ls);
    assert Split("line1\nline2\nline3\nline4")[3] == "line4";
  }

  lemma JoinOfFour()
    ensures Join(["line1", "line2", "line3", "line4"]) == "line1\nline2\nline3\nline4"
  {
    var ls := ["line1", "line2", "line3", "line4"];
    assert ls[1..] == ["line2", "line3", "line4"];
    assert ls[1..][1..] == ["line3", "line4"];
    assert Join(ls[1..][1..]) == "line3\nline4";
    assert Join(ls[1..]) == "line2\nline3\nline4";
  }
}
