# chompie, modelled in Dafny

chompie shrinks a set of source files. It keeps blanking ranges of lines as
long as a user command still produces exactly the output it gave on the
untouched files (the *baseline*).

The model covers the following parts:

- The file manager. Each file keeps its original lines and a set of blanked
  line indices. The written content replaces blanked lines with empty
  lines.
- The range generators:
  - bisection;
  - sliding window;
  - up-to-n-lines;
  - random lines and random ranges, both driven by a 64-bit linear
    congruential generator;
  - the Bisector's halving of physical lines.
- One chomp attempt and the strategy sweep of the Chomper. This covers the
  memo of tested states, the commit-or-revert step and the error paths.
- The result comparison of the command runner.
- The progress counters.
- The blackjack example that ships with the tool: cards, hands, the
  unshuffled deck and one round of play.

The file list of the manager is a sequence of file states with distinct
paths. Iterating over the manager's map becomes iterating over this
sequence in order.

The command and the disk are parameters of the model:

- `Command` maps the current state to the command's result, or to nothing
  when the command cannot be launched.
- `Disk` says whether writing that state out succeeds.

A state is identified by its per-file blanked sets (`Trials.StateKey`).

The model is split as the source is:

- Functions for pure computations.
- Classes with `modifies`/`reads` frames for the stateful objects:
  `FileState`, `FileManager`, `Chomper`, `Bisector`, `ProgressTracker`,
  `Hand`, `Deck` and `Game`.
- Methods with loop invariants for each loop of the source. Each such
  method is proved equal to a specification function, and the properties
  are proved about that function.

## Model

| member | source | states |
|---|---|---|
| Files.Split | chompie/src/file_manager.rs:14-15 | the pieces between newlines; there is at least one and none contains a newline |
| Files.Lines | chompie/src/file_manager.rs:14-15 | splitting content into lines yields newline-free lines (a final newline ends the last line and does not start a new one) |
| Files.JoinSplit | chompie/src/file_manager.rs:37-50 | joining the split pieces with newlines gives the text back |
| Files.SplitJoin | chompie/src/file_manager.rs:37-50 | splitting newline-free lines joined by newlines gives the lines back |
| Files.LinesJoin | chompie/src/file_manager.rs:14-15 | the lines joined by newlines, plus the final newline if there was one, are the original content |
| Files.NewlineIndex | chompie/src/file_manager.rs:14-15 | the first newline of a text: its position holds a newline and no earlier one does |
| Files.Unblanked | chompie/src/file_manager.rs:61-65 | an index is listed iff it lies below n and is not blanked |
| Files.UnblankedIncreasing | chompie/src/file_manager.rs:61-65 | the listed indices are strictly ascending |
| Files.UnblankedCount | chompie/src/file_manager.rs:56-58 | the non-blank indices plus the blanked indices inside the file number exactly the lines |
| Files.Shown | chompie/src/file_manager.rs:37-50 | the lines as written: one per original line, blanked ones empty |
| Files.FileState.constructor | chompie/src/file_manager.rs:14-21 | a new file state holds the lines of the content and nothing blanked |
| Files.FileState.BlankLines | chompie/src/file_manager.rs:23-29 | adds exactly the listed indices that lie inside the file; others are ignored; re-blanking changes nothing |
| Files.FileState.UnblankLines | chompie/src/file_manager.rs:31-35 | removes exactly the listed indices from the blanked set |
| Files.FileState.NonBlankLineIndices | chompie/src/file_manager.rs:61-65 | an index is listed iff it lies in the file and is not blanked |
| Files.NonBlankIncreasing | chompie/src/file_manager.rs:61-65 | a file's non-blank indices are strictly ascending |
| Files.FileState.NonBlankLines | chompie/src/file_manager.rs:56-58 | the line count minus the blanked count equals the number of non-blank indices and never underflows |
| Files.FileState.CurrentContent | chompie/src/file_manager.rs:37-50 | the content written for a valid, non-empty file splits back into exactly the shown lines |
| Files.ShownRoundTrip | chompie/src/file_manager.rs:37-50 | newline-free lines, with some blanked, joined by newlines split back into the same shown lines |
| Files.ContentSplitsIntoShownLines | chompie/src/file_manager.rs:37-50 | the written content splits back into exactly the shown lines: blanked lines empty, the others unchanged |
| Files.ContentExample | chompie/src/file_manager.rs:183-190 | blanking lines 0 and 2 of line1..line4 writes "\nline2\n\nline4" |
| Files.PathIndex | chompie/src/file_manager.rs:146-148 | the position of the file with a path, or none when no file has it |
| Files.NonBlankAtMostTotal | chompie/src/file_manager.rs:154-160 | across all files the non-blank count never exceeds the line count |
| Files.FileManager.constructor | chompie/src/file_manager.rs:73-77 | a new manager has no files |
| Files.FileManager.AddFileFromContent | chompie/src/file_manager.rs:163-165 | inserting replaces the state of an existing path, or appends a new file; other files are kept |
| Files.FileManager.GetFileMut | chompie/src/file_manager.rs:146-148 | a state is found iff some tracked file has the path, and the state found is a tracked file with that path |
| Files.GetFileUnique | chompie/src/file_manager.rs:146-148 | paths are distinct in a valid manager, so the state found under a path is exactly the file stored there |
| Files.FileManager.NonBlankLines | chompie/src/file_manager.rs:158-160 | the manager's non-blank total is at most its line total |
| Files.LinesOfFour | chompie/src/file_manager.rs:183-190 | "line1\nline2\nline3\nline4" has the four lines of the source's test |
| Files.LinesOfThree | chompie/src/chomper.rs:154-173 | "line1\nline2\nline3" has three lines |
| Files.MiddleExample | chompie/src/file_manager.rs:213-228 | blanking line 1 of line1..line3 writes "line1\n\nline3" |
| Files.FreshFileCounts | chompie/src/file_manager.rs:175-180 | a fresh three-line file has 3 lines, all 3 non-blank |
| Files.BlankTwoOfFour | chompie/src/file_manager.rs:183-190 | blanking lines 0 and 2 of four leaves 2 non-blank lines and writes "\nline2\n\nline4" |
| Files.UnblankOne | chompie/src/file_manager.rs:193-199 | blanking all three lines and unblanking line 1 leaves exactly 1 non-blank line |
| Files.BlankAllUnblankMiddle | chompie/src/file_manager.rs:193-199 | blanking 0..2 then unblanking 1 leaves lines 0 and 2 blanked |
| Files.BlankMiddle | chompie/src/file_manager.rs:213-228 | the manager writes "line1\n\nline3" after line 1 is blanked |
| ChompRanges.Iota | chompie/src/bisector.rs:107-134 | the list 0, 1, ..., n-1 |
| ChompRanges.FreshFileIndices | chompie/src/file_manager.rs:61-65 | with nothing blanked, the non-blank indices are 0..n-1 |
| ChompRanges.SpanCovers | chompie/src/strategy.rs:3-9 | a range from the i-th to the (j-1)-th non-blank line is non-empty, fits in the file, starts and ends on non-blank lines, and covers exactly the non-blank entries i..j-1 |
| ChompRanges.Windows | chompie/src/strategies/sliding_window.rs:30-69 | every window of w consecutive non-blank lines: count - w + 1 of them, the i-th from entry i to entry i + w - 1 |
| ChompRanges.PushWindows | chompie/src/strategies/sliding_window.rs:30-69 | the window loop appends exactly those windows |
| ChompRanges.Entries | chompie/src/strategies/random_lines.rs:55-56 | each file's path with its non-blank index list, in manager order |
| ChompRanges.SpanInFile | chompie/src/strategy.rs:3-9 | every span of a file's non-blank list is a non-blank range of that file |
| ChompRanges.SpansInFiles | chompie/src/strategy.rs:3-9 | ranges that span consecutive non-blank entries of the files are non-blank ranges of those files |
| SlidingWindow.New | chompie/src/strategies/sliding_window.rs:18-22 | a window size of 0 is raised to 1 |
| SlidingWindow.GenerateRanges | chompie/src/strategies/sliding_window.rs:30-69 | the generator's loop yields, file by file, the windows the specification defines |
| SlidingWindow.FileRangesShape | chompie/src/strategies/sliding_window.rs:30-69 | no non-blank lines give nothing; fewer than w give one range over all of them; otherwise count - w + 1 windows, the i-th from nb[i] to nb[i+w-1]+1 |
| SlidingWindow.RangesNonBlank | chompie/src/strategies/sliding_window.rs:30-69 | every range names a tracked file, is non-empty, fits in it, and starts and ends on non-blank lines |
| SlidingWindow.EntryRangesSpans | chompie/src/strategies/sliding_window.rs:30-69 | every range spans consecutive non-blank entries of one of the files |
| SlidingWindow.UnitWindowsOverFreshFile | chompie/src/strategies/sliding_window.rs:78-97 | with width 1 over a fresh n-line file, range i is [i, i+1) |
| SlidingWindow.TestCounts | chompie/src/strategies/sliding_window.rs:78-159 | the test counts: 4, 3 and 3 ranges; with line 1 blanked, no range starts at 1 |
| UpToNLines.New | chompie/src/strategies/up_to_n_lines.rs:21-25 | a maximum of 0 is raised to 1 |
| UpToNLines.GenerateRanges | chompie/src/strategies/up_to_n_lines.rs:33-66 | the nested loops yield windows of size 1, then 2, ..., up to the maximum, each level file by file |
| UpToNLines.LevelRanges | chompie/src/strategies/up_to_n_lines.rs:37-63 | one level: every file's windows of that size, in order |
| UpToNLines.PushFileWindows | chompie/src/strategies/up_to_n_lines.rs:40-62 | one file's windows of that size are appended |
| UpToNLines.SmallerWindowsFirst | chompie/src/strategies/up_to_n_lines.rs:33-66 | the ranges up to size m are a prefix of the ranges up to any larger n |
| UpToNLines.Counts | chompie/src/strategies/up_to_n_lines.rs:33-66 | one non-blank count per file |
| UpToNLines.LevelSize | chompie/src/strategies/up_to_n_lines.rs:37-63 | a level has the sum over files of count - w + 1 windows, or none for a file with fewer than w lines |
| UpToNLines.RangesSize | chompie/src/strategies/up_to_n_lines.rs:33-66 | the number of ranges is the sum of those level sizes |
| UpToNLines.TestCounts | chompie/src/strategies/up_to_n_lines.rs:75-207 | 7 ranges for 4 lines up to 2, 6 for 3 lines up to 10, none for an empty file, 8 for two files, and 2 with a maximum of 0 |
| UpToNLines.LevelCountsVanish | chompie/src/strategies/up_to_n_lines.rs:33-66 | window sizes beyond every file's count add nothing |
| UpToNLines.LevelCountZero | chompie/src/strategies/up_to_n_lines.rs:37-63 | a window wider than every file gives an empty level |
| UpToNLines.RangesNonBlank | chompie/src/strategies/up_to_n_lines.rs:33-66 | every range is a non-blank range of a tracked file |
| UpToNLines.AllLevelsSpans | chompie/src/strategies/up_to_n_lines.rs:33-66 | every range of every level spans consecutive non-blank entries of one of the files |
| UpToNLines.LevelSpans | chompie/src/strategies/up_to_n_lines.rs:37-63 | every window of one level spans consecutive non-blank entries of one of the files |
| Bisection.GenerateRanges | chompie/src/strategies/bisection.rs:14-49 | the generator yields, file by file, the halving levels over the non-blank lines |
| Bisection.FileBisection | chompie/src/strategies/bisection.rs:17-46 | one file: levels of count/2, count/4, ..., 1 lines |
| Bisection.LevelPieces | chompie/src/strategies/bisection.rs:25-42 | one level: the pieces [start, min(start+size, count)) from left to right |
| Bisection.ChunksPartition | chompie/src/strategies/bisection.rs:25-42 | a level covers every non-blank line from its start, its pieces are ordered and disjoint, and each is non-empty and lies within [nb[start], total) |
| Bisection.ChunksCover | chompie/src/strategies/bisection.rs:25-42 | every non-blank entry from the start lies in some piece |
| Bisection.ChunksBounded | chompie/src/strategies/bisection.rs:25-42 | every piece is non-empty and lies within [nb[start], total) |
| Bisection.ChunksOrdered | chompie/src/strategies/bisection.rs:25-42 | each piece ends at or before the next one starts |
| Bisection.ChunkAt | chompie/src/strategies/bisection.rs:25-42 | piece k spans non-blank entries start + k·size to min(start + (k+1)·size, count) |
| Bisection.ChunkCount | chompie/src/strategies/bisection.rs:25-42 | a level has the ceiling of (count - start)/size pieces |
| Bisection.ChunksNonBlank | chompie/src/strategies/bisection.rs:25-42 | every piece is a non-blank range of the file |
| Bisection.LevelsNonBlank | chompie/src/strategies/bisection.rs:17-46 | every range of every level is a non-blank range of the file |
| Bisection.RangesNonBlank | chompie/src/strategies/bisection.rs:14-49 | every range is a non-blank range of a tracked file |
| Bisection.TestCounts | chompie/src/strategies/bisection.rs:58-71 | four lines give 6 ranges (two halves, four singles); one non-blank line gives none |
| Lcg.Step | chompie/src/strategies/random_lines.rs:43-46 | the next state is (state·1103515245 + 12345) mod 2^64 |
| Lcg.Next | chompie/src/strategies/random_lines.rs:43-46 | the draw is below 32768 and is bits 16 to 30 of the new state |
| Lcg.FirstDraws | chompie/src/strategies/random_ranges.rs:38-43 | the first draws from seeds 12345 and 54321 |
| RandomLines.New | chompie/src/strategies/random_lines.rs:14-20 | the fixed seed is 12345 |
| RandomLines.WithSeed | chompie/src/strategies/random_lines.rs:22-24 | keeps the given attempts and seed |
| RandomLines.GenerateRanges | chompie/src/strategies/random_lines.rs:32-81 | the generator's loop yields the specified draw sequence; no ranges when no line is non-blank |
| RandomLines.RunAttempts | chompie/src/strategies/random_lines.rs:49-78 | the attempt loop runs min(max attempts, non-blank total) draws |
| RandomLines.TotalNonBlank | chompie/src/strategies/random_lines.rs:36 | sums the non-blank counts of all files |
| RandomLines.TryOnce | chompie/src/strategies/random_lines.rs:53-77 | one attempt: pick a file, skip it if it has no non-blank line, pick a line, skip it if already tried |
| RandomLines.DrawEffect | chompie/src/strategies/random_lines.rs:53-77 | one attempt offers at most one single non-blank line of an entry, not tried before, and remembers it |
| RandomLines.LoopShape | chompie/src/strategies/random_lines.rs:49-78 | at most one range per attempt, each a single non-blank line of an entry |
| RandomLines.LoopFresh | chompie/src/strategies/random_lines.rs:49-78 | no range repeats a line tried before the loop or earlier in it |
| RandomLines.LoopProperties | chompie/src/strategies/random_lines.rs:49-78 | at most one range per attempt, each a single non-blank line of a file, never one already tried, no (file, line) twice |
| RandomLines.RangesProperties | chompie/src/strategies/random_lines.rs:32-81 | at most min(max attempts, non-blank total) ranges; each is one non-blank line of a tracked file; no line is tried twice |
| RandomRanges.New | chompie/src/strategies/random_ranges.rs:14-19 | the fixed seed is 54321 |
| RandomRanges.WithSeed | chompie/src/strategies/random_ranges.rs:21-23 | keeps the given attempts and seed |
| RandomRanges.GenerateRanges | chompie/src/strategies/random_ranges.rs:31-80 | the generator's loop yields the specified draw sequence; no ranges without files |
| RandomRanges.RunAttempts | chompie/src/strategies/random_ranges.rs:45-77 | the loop runs the maximum number of attempts |
| RandomRanges.TryOnceIn | chompie/src/strategies/random_ranges.rs:45-77 | one loop step is the first attempt followed by the remaining ones |
| RandomRanges.TryOnce | chompie/src/strategies/random_ranges.rs:46-76 | one attempt: pick a file, skip it below two non-blank lines, pick a start and a size up to a quarter of the count (at least 1), clip at the end |
| RandomRanges.AttemptDrawn | chompie/src/strategies/random_ranges.rs:46-76 | one attempt offers at most one range, a run of at most max(count/4, 1) non-blank entries of a file with two or more |
| RandomRanges.LoopProperties | chompie/src/strategies/random_ranges.rs:45-77 | at most one range per attempt; each spans at most max(count/4, 1) consecutive non-blank entries of a file with two or more |
| RandomRanges.RangesProperties | chompie/src/strategies/random_ranges.rs:31-80 | at most max-attempts ranges, each a non-blank range of a tracked file |
| CommandRunner.IsIdentical | chompie/src/command_runner.rs:12-14 | two results are identical iff stdout, stderr and exit code all agree |
| CommandRunner.IdenticalIsEquivalence | chompie/src/command_runner.rs:12-14 | identity is reflexive, symmetric and transitive |
| CommandRunner.OneFieldDiffers | chompie/src/command_runner.rs:12-14 | changing any single field makes results differ |
| CommandRunner.IdenticalExamples | chompie/src/command_runner.rs:99-126 | the source's identical and non-identical examples |
| Strategies.NamesDistinct | chompie/src/strategy.rs:12-14 | equal display names mean the same kind of strategy |
| Strategies.GenerateRanges | chompie/src/strategy.rs:16-18 | dispatch yields the chosen strategy's specified ranges |
| Strategies.RangesNonBlank | chompie/src/strategy.rs:16-18 | every strategy's ranges are non-blank ranges of tracked files |
| Trials.KeyOf | chompie/src/chomper.rs:35-47 | the state key lists each file's path with its blanked set, in manager order |
| Trials.RangeLines | chompie/src/chomper.rs:68 | the lines from start to end - 1 |
| Trials.FindPath | chompie/src/chomper.rs:70 | the first file with the path, or none when no file has it |
| Trials.FindPathOfKey | chompie/src/file_manager.rs:146-148 | looking up a path in the key finds the same file as looking it up in the manager |
| Trials.BlankIn | chompie/src/chomper.rs:70-71 | the file's entry gains the range's lines that lie inside the file; its path and every other entry are unchanged |
| Trials.UnblankIn | chompie/src/chomper.rs:94-96 | the file's entry loses every line of the range; its path and every other entry are unchanged |
| Trials.Attempt | chompie/src/chomper.rs:61-101 | an attempt changes blanked sets only, never the list of files; its behaviour is stated by the lemmas below |
| Trials.BlankAt | chompie/src/chomper.rs:70-71 | blanking in place gives the key the specification predicts |
| Trials.UnblankAt | chompie/src/chomper.rs:94-96 | unblanking in place gives the key the specification predicts |
| Trials.TryBlank | chompie/src/chomper.rs:61-101 | the in-place attempt returns the specified result, leaves the specified state and memo |
| Trials.NoBaselineNeverSucceeds | chompie/src/chomper.rs:86-90 | without a baseline no attempt succeeds |
| Trials.SuccessIffIdentical | chompie/src/chomper.rs:61-101 | an attempt succeeds iff the state was untested, the file exists, the write succeeds, and the command runs with output identical to the baseline |
| Trials.AttemptEffect | chompie/src/chomper.rs:61-101 | only the range's file changes; success adds the range's lines inside the file; a mismatch removes the whole range (earlier blanks included) |
| Trials.MemoGrowth | chompie/src/chomper.rs:61-101 | the memo grows by at most the blanked state; a launch failure records nothing |
| Trials.NextAfterSuccessIsMemoHit | chompie/src/chomper.rs:49-57 | after a success the memo holds the new state, so the next attempt reports no success and changes nothing |
| Trials.ConstantCommandSucceeds | chompie/src/bisector.rs:181-204 | with a constant command and a working disk, an untested state with a known file succeeds |
| Trials.RevertUndoesEarlierCommit | chompie/src/chomper.rs:92-97 | a mismatching range over an already blanked line unblanks it too |
| Trials.Run | chompie/src/chomper.rs:104-117 | the sweep keeps the list of files and counts at most one success per range |
| Trials.RunBounds | chompie/src/chomper.rs:104-117 | successes are at most the ranges, the memo only grows, by at most one state per range |
| Trials.ConstantCommandSucceedsOnce | chompie/src/chomper.rs:154-173 | with a constant command, the first range succeeds and every later one hits the memo: exactly one success |
| Trials.MemoHitsThroughout | chompie/src/chomper.rs:49-64 | once the current state is tested, a sweep changes nothing and succeeds nowhere |
| Chomping.Chomper.constructor | chompie/src/chomper.rs:16-23 | no baseline and an empty memo |
| Chomping.Chomper.EstablishBaseline | chompie/src/chomper.rs:25-29 | the command's result becomes the baseline; a launch failure is an error and changes nothing |
| Chomping.Chomper.TryBlankRange | chompie/src/chomper.rs:61-101 | one attempt on the live files, as specified |
| Chomping.Chomper.TryRanges | chompie/src/chomper.rs:108-114 | the loop over the ranges returns the specified success count and leaves the specified state and memo; errors count as no success |
| Chomping.Chomper.ExecuteStrategy | chompie/src/chomper.rs:104-117 | the loop over the strategy's ranges returns the specified success count and leaves the specified state and memo; errors count as no success |
| Chomping.ExecuteBounds | chompie/src/chomper.rs:104-117 | the count is at most the number of ranges and the memo only grows |
| Chomping.ConstantCommandScenario | chompie/src/chomper.rs:154-173 | the source's test: a constant command over a three-line file under bisection gives exactly one success |
| Chomping.ScenarioSweep | chompie/src/chomper.rs:154-173 | the sweep of that test succeeds once |
| Chomping.ThreeLineBisection | chompie/src/strategies/bisection.rs:14-49 | a fresh three-line file bisects into its three single lines |
| Bisecting.PhysicalLevel | chompie/src/bisector.rs:119-128 | the inner loop yields the pieces [start, min(start+size, total)) left to right |
| Bisecting.PhysicalFile | chompie/src/bisector.rs:117-130 | the halving loop yields levels of total/2, total/4, ..., 1 lines |
| Bisecting.Bisector.GenerateRanges | chompie/src/bisector.rs:107-134 | the physical bisection of every file, ignoring blanked lines |
| Bisecting.LevelTiles | chompie/src/bisector.rs:119-128 | a level tiles [start, total): non-empty pieces, each starting where the previous ended, ending at total |
| Bisecting.RangesFit | chompie/src/bisector.rs:107-134 | every range names a tracked file, is non-empty and fits in it |
| Bisecting.LevelsFit | chompie/src/bisector.rs:117-130 | every range of a file's levels is non-empty and fits in it |
| Bisecting.SmallFiles | chompie/src/bisector.rs:166-178 | empty and one-line files give nothing; four lines give two halves then four single lines |
| Bisecting.Bisector.constructor | chompie/src/bisector.rs:22-29 | no baseline and an empty memo |
| Bisecting.Bisector.EstablishBaseline | chompie/src/bisector.rs:31-35 | the command's result becomes the baseline; a launch failure changes nothing |
| Bisecting.Bisector.TryBlankRange | chompie/src/bisector.rs:65-105 | the same attempt as the Chomper's, as specified |
| Bisecting.MatchingRangeScenario | chompie/src/bisector.rs:181-204 | with a constant command, blanking the first line of a three-line file succeeds |
| Progress.Successes | chompie/src/progress.rs:20-25 | the number of successes is at most the number of outcomes, and zero iff none succeeded |
| Progress.ProgressTracker.constructor | chompie/src/progress.rs:11-18 | both counters start at 0 and the total is kept |
| Progress.ProgressTracker.RecordChomp | chompie/src/progress.rs:20-25 | one more chomp; one more success exactly when it succeeded; successes never exceed chomps |
| Progress.ProgressTracker.SuccessfulChomps | chompie/src/progress.rs:65-67 | successes never exceed chomps performed |
| Progress.Track | chompie/src/progress.rs:20-25 | recording a list of outcomes counts them all and counts the successes |
| Progress.SuccessThenFailure | chompie/src/progress.rs:74-88 | a new tracker reads (0, 0); a success then a failure reads (2, 1) |
| Progress.SuccessesAppend | chompie/src/progress.rs:20-25 | the success count of two runs is the sum of their counts |
| PlayingCards.Value | chompie/examples/blackjack_chomped/src/card.rs:39-52 | the value lies in [2, 11]; 11 iff an ace, 10 iff ten or picture card; a value below 10 is the digit the card shows |
| PlayingCards.Display | chompie/examples/blackjack_chomped/src/card.rs:55-79 | the text ends with the suit symbol |
| PlayingCards.RankRoundTrip | chompie/examples/blackjack_chomped/src/card.rs:57-77 | reading a rank's text back gives the rank |
| PlayingCards.SuitRoundTrip | chompie/examples/blackjack_chomped/src/card.rs:57-77 | a suit's symbol is one character, and reading it back gives the suit |
| PlayingCards.TextsDistinct | chompie/examples/blackjack_chomped/src/card.rs:57-77 | every suit symbol is one character and each rank and suit text determines its rank or suit |
| PlayingCards.ParseDisplay | chompie/examples/blackjack_chomped/src/card.rs:55-79 | reading a displayed card back gives the card |
| PlayingCards.DisplayParse | chompie/examples/blackjack_chomped/src/card.rs:55-79 | every text that reads as a card is that card's display |
| PlayingCards.DisplayInjective | chompie/examples/blackjack_chomped/src/card.rs:55-79 | different cards display differently |
| PlayingCards.ExampleCards | chompie/examples/blackjack_chomped/src/card.rs:86-108 | five is 5, king 10, ace 11, and the ace of hearts shows "A♥" |
| Hands.AceCount | chompie/examples/blackjack_chomped/src/hand.rs:20-25 | at most one ace per card |
| Hands.RawSumBounds | chompie/examples/blackjack_chomped/src/hand.rs:20-25 | the raw sum is at least 2 per card plus 9 per ace, and at most 10 per card plus 1 per ace |
| Hands.Demotions | chompie/examples/blackjack_chomped/src/hand.rs:28-31 | at most the number of aces, and stops at 21 or less unless all aces are demoted |
| Hands.DemotionsFewest | chompie/examples/blackjack_chomped/src/hand.rs:28-31 | any smaller number of demotions leaves the total over 21 |
| Hands.HandValue | chompie/examples/blackjack_chomped/src/hand.rs:16-34 | never above the raw sum, and equal to it when that is at most 21 |
| Hands.BestTotal | chompie/examples/blackjack_chomped/src/hand.rs:16-34 | the value is the largest total not over 21 that counting some aces as 1 can reach; if none exists, every total is over 21 and the value counts every ace as 1 |
| Hands.Hand.constructor | chompie/examples/blackjack_chomped/src/hand.rs:8-10 | a new hand is empty |
| Hands.Hand.AddCard | chompie/examples/blackjack_chomped/src/hand.rs:12-14 | appends the card, earlier cards unchanged |
| Hands.Hand.Value | chompie/examples/blackjack_chomped/src/hand.rs:16-34 | the summing loop then the demotion loop compute the hand value |
| Hands.BustAllAcesLow | chompie/examples/blackjack_chomped/src/hand.rs:36-38 | a hand is over 21 iff it is over 21 with every ace counted as 1, and a bust hand has at least three cards |
| Hands.Hand.IsBust | chompie/examples/blackjack_chomped/src/hand.rs:36-38 | bust iff the total with every ace counted as 1 is over 21; no hand of two cards or fewer is bust |
| Hands.Hand.IsBlackjack | chompie/examples/blackjack_chomped/src/hand.rs:40-42 | blackjack iff the hand is two cards, one an ace and the other worth 10 |
| Hands.TwoCardsTwentyOne | chompie/examples/blackjack_chomped/src/hand.rs:40-42 | a two-card hand makes 21 iff one card is an ace and the other is worth 10 |
| Hands.TwoCardTwentyOne | chompie/examples/blackjack_chomped/src/hand.rs:40-42 | two cards make 21 iff one is an ace and the other is worth 10 |
| Hands.ExampleHands | chompie/examples/blackjack_chomped/src/hand.rs:55-104 | 5+7 is 12, A+9 is 20, A+5+7 is 13, K+Q+5 is bust, A+K is blackjack, 7+8+6 is 21 but not blackjack |
| Decks.FullDeck | chompie/examples/blackjack_chomped/src/deck.rs:8-34 | a new deck has 52 cards |
| Decks.DeckIndex | chompie/examples/blackjack_chomped/src/deck.rs:27-31 | position 13·s + r holds the r-th rank of the s-th suit |
| Decks.DeckDistinct | chompie/examples/blackjack_chomped/src/deck.rs:27-31 | no card occurs twice in a new deck |
| Decks.DeckComplete | chompie/examples/blackjack_chomped/src/deck.rs:27-31 | every card occurs in a new deck exactly once |
| Decks.Deck.constructor | chompie/examples/blackjack_chomped/src/deck.rs:8-34 | the nested loops build the deck suit by suit, rank by rank |
| Decks.Deck.Draw | chompie/examples/blackjack_chomped/src/deck.rs:36-38 | takes the last card; an empty deck gives nothing and stays empty |
| Decks.DrawDown | chompie/examples/blackjack_chomped/src/deck.rs:54-75 | 52 cards; the first draw is the ace of spades and leaves 51; after 52 draws the deck is empty and the next draw gives nothing |
| Games.Decide | chompie/examples/blackjack_chomped/src/game.rs:51-70 | the player wins iff not bust and the dealer is bust or lower; the dealer wins iff the player is bust or the dealer is not bust and higher; push iff neither is bust and the values are equal |
| Games.Game.Result | chompie/examples/blackjack_chomped/src/game.rs:51-70 | a bust player loses; otherwise a bust dealer loses; otherwise the higher hand value wins and equal values push, stated over the two hands |
| Games.Game.constructor | chompie/examples/blackjack_chomped/src/game.rs:17-33 | deals player, dealer, player, dealer from the top: ace and queen of spades to the player, king and jack to the dealer, 48 left, all 52 cards accounted for |
| Games.DealInitial | chompie/examples/blackjack_chomped/src/game.rs:22-26 | the four opening draws, conserving every card |
| Games.InitialDeal | chompie/examples/blackjack_chomped/src/game.rs:22-26 | from a new deck the player gets the ace and queen of spades, the dealer the king and jack, 48 cards remain and none is lost |
| Games.DealtFromTop | chompie/examples/blackjack_chomped/src/game.rs:22-26 | the player gets the 1st and 3rd card from the top, the dealer the 2nd and 4th, the rest of the deck stays in order, and no card is lost |
| Games.Conserve | chompie/examples/blackjack_chomped/src/game.rs:22-26 | splitting the four dealt cards between the hands loses none |
| Games.Game.PlayerHit | chompie/examples/blackjack_chomped/src/game.rs:35-39 | the top card moves to the player; an empty deck changes nothing; the dealer is untouched |
| Games.Game.DealerPlay | chompie/examples/blackjack_chomped/src/game.rs:41-49 | the dealer draws from the top, in order, until worth 17 or more or the deck is empty, stopping at the first such hand; the player is untouched |
| Games.Game.DealerDraw | chompie/examples/blackjack_chomped/src/game.rs:43-47 | one draw of the dealer's loop |
| Games.CardsConserved | chompie/examples/blackjack_chomped/src/game.rs:17-49 | deck and both hands always hold 52 cards together |
| Games.DealerStandsOnTwenty | chompie/examples/blackjack_chomped/src/game.rs:41-49 | a dealer holding 20 draws nothing |
| Games.Scenarios | chompie/examples/blackjack_chomped/src/game.rs:86-107 | two cards each after the deal, three for the player after a hit, at least two dealer cards worth 17 or more after the dealer's turn |
| Games.UnshuffledRound | chompie/examples/blackjack_chomped/src/main.rs:8-36 | in the unshuffled game the player stands on 21, the dealer on 20, and the player wins |

## Left out

- Reading files and directories (`add_file`, `add_directory`, `visit_directory`) and writing or restoring them (`write_all`, `restore_all`): file-system I/O. A file enters the model through `AddFileFromContent`. Whether a write succeeds is the `Disk` parameter, and restoring originals is not modelled.
- Running the command (`CommandRunner::new`, `with_verbose`, `run`): process spawning. Its result, or its failure to start, is the `Command` parameter. Verbose printing is not modelled.
- The command-line program (chompie/src/main.rs), its confirmation prompt and the `eprintln!` of errors during a sweep. In the model, an errored attempt simply does not count as a success.
- `ProgressTracker::display` and `summary`: floating-point percentages and wall-clock time. `start_time` is not a field of the model.
- Map iteration order: the source iterates a `HashMap`, whose order is unspecified. The model fixes it to the manager's sequence order, both for iteration and for `nth(file_index)`. Which file a random draw picks therefore depends on that order.
- Memo key: the source's key is a `format!`-ed string of the blanked lines, printed in `HashSet` iteration order. The same blanked set can therefore print as different strings, and the source only guarantees that equal strings mean equal states. The model keys on the list of (path, blanked set) pairs, so equal sets are one state, and it may report a memo hit where the source would test the same state again.
- `str::lines` also strips a carriage return before each newline. The model splits on newline only.
- Files.FileState.NonBlankLines: `usize` underflow is not modelled. The model proves instead that blanked indices always lie inside the file, so the subtraction cannot underflow.
- Hands.HandValue: computed in unbounded integers. The source's `u8` total wraps once a hand's raw sum exceeds 255, i.e. for hands of more than 23 cards.
- Progress.ProgressTracker.RecordChomp: `usize` overflow of the counters is not modelled.
- Lcg.Next: the cast of a draw to `usize` is assumed to be lossless, since draws are below 32768.
- bisector.rs declares its own `ChompRange` with the same three fields as the shared one. The model uses the shared `ChompRanges.ChompRange` for both.
- chompie/src/strategies/mod.rs exports only bisection, random lines and random ranges. The sliding-window and up-to-n-lines strategies are modelled anyway, and `Strategies.Strategy` dispatches over all five.
- Getters that return a field unchanged are plain functions without contracts:
  - `baseline_result`, `chomps_tested` and `file_manager` on Chomper and Bisector;
  - `files` and `total_lines` on FileManager, and `total_lines` on FileState;
  - `chomps_performed` on ProgressTracker;
  - `len` and `is_empty` on Deck;
  - `cards` on Hand;
  - `player_hand` and `dealer_hand` on Game.

  Their meaning is stated by the lemmas above.
- `Game::new` unwraps four draws. The source would panic on an empty deck, but a new deck holds 52 cards, so the model never reaches that case.
- Strategies.Name: the display names are only proved distinct. The exact strings are taken from the source but carry no further property.
