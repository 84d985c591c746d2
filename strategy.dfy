/**
 * The candidate shape shared by every strategy (chompie/src/strategy.rs):
 * a half-open physical line range [startLine, endLine) of one file, and
 * the ways the strategies cut such ranges out of a file's ascending list
 * of non-blank line indices.
 */
module ChompRanges {
  import opened Files

  /** Window and chunk sizes are at least one. */
  type pos = n: nat | 1 <= n witness 1

  datatype ChompRange = ChompRange(file: string, startLine: nat, endLine: nat)

  /** The indices 0, 1, ..., n - 1. */
  function Iota(n: nat): (s: seq<nat>)
    ensures |s| == n && forall i | 0 <= i < n :: s[i] == i
  {
    seq(n, i requires 0 <= i < n => i)
  }

  /** A file with no blanked lines has every index non-blank, in order. */
  lemma {:induction false} FreshFileIndices(n: nat)
    ensures Unblanked(n, {}) == Iota(n)
  {
    if n > 0 {
      FreshFileIndices(n - 1);
      assert Iota(n) == Iota(n - 1) + [n - 1];
    }
  }

  /**
   * The physical range from the i-th to the (j-1)-th entry of the
   * non-blank index list nb.
   */
  function Span(file: string, nb: seq<nat>, i: nat, j: nat): ChompRange
    requires i < j <= |nb|
  {
    ChompRange(file, nb[i], nb[j - 1] + 1)
  }

  /**
   * A span is non-empty, lies inside the file, starts and ends on
   * non-blank lines, and covers exactly the entries nb[i..j] of the
   * non-blank list (blank lines between them are covered too).
   */
  lemma SpanCovers(file: string, nb: seq<nat>, total: nat, i: nat, j: nat)
    requires Increasing(nb) && forall k | 0 <= k < |nb| :: nb[k] < total
    requires i < j <= |nb|
    ensures Span(file, nb, i, j).startLine < Span(file, nb, i, j).endLine <= total
    ensures Span(file, nb, i, j).startLine in nb && Span(file, nb, i, j).endLine - 1 in nb
    ensures forall k | 0 <= k < |nb| ::
      (Span(file, nb, i, j).startLine <= nb[k] < Span(file, nb, i, j).endLine <==> i <= k < j)
  {
    assert i == j - 1 || nb[i] < nb[j - 1];
  }

  lemma AppendAssoc(a: seq<ChompRange>, b: seq<ChompRange>, c: seq<ChompRange>)
    ensures a + (b + c) == (a + b) + c
  {
  }

  /** Every window of w consecutive non-blank lines, in order. */
  function Windows(file: string, nb: seq<nat>, w: pos): (ws: seq<ChompRange>)
    ensures |ws| == if w <= |nb| then |nb| - w + 1 else 0
    ensures forall i | 0 <= i < |ws| :: i + w <= |nb| && ws[i] == Span(file, nb, i, i + w)
  {
    if w <= |nb| then seq(|nb| - w + 1, i requires 0 <= i < |nb| - w + 1 => Span(file, nb, i, i + w))
    else []
  }

  /** Pushes every window of w consecutive non-blank lines, in order. */
  method PushWindows(ranges: seq<ChompRange>, file: string, nb: seq<nat>, w: pos)
    returns (ranges': seq<ChompRange>)
    ensures ranges' == ranges + Windows(file, nb, w)
  {
    ranges' := ranges;
    if w <= |nb| {
      ghost var ws := Windows(file, nb, w);
      var i := 0;
      while i <= |nb| - w
        invariant 0 <= i <= |nb| - w + 1
        invariant ranges' == ranges + ws[..i]
      {
        ranges' := ranges' + [ChompRange(file, nb[i], nb[i + w - 1] + 1)];
        assert ws[..i + 1] == ws[..i] + [ws[i]];
        i := i + 1;
      }
      assert ws[..i] == ws;
    }
  }

  /** Each file's path with its non-blank index list, in order. */
  function Entries(files: seq<FileState>): (es: seq<(string, seq<nat>)>)
    reads files
    ensures |es| == |files|
    ensures forall i | 0 <= i < |files| :: es[i] == (files[i].path, files[i].NonBlankLineIndices())
  {
    seq(|files|, i requires 0 <= i < |files| reads files => (files[i].path, files[i].NonBlankLineIndices()))
  }

  /** r is a single line that is non-blank in one of the entries. */
  lemma EntryLineInFile(files: seq<FileState>, k: nat, r: ChompRange)
    requires k < |files| && r.file == files[k].path && r.startLine in files[k].NonBlankLineIndices()
    requires r.endLine == r.startLine + 1
    ensures exists f | f in files :: NonBlankRangeIn(r, f)
  {
    assert files[k] in files;
  }

  /** r names f, is non-empty, fits in f, and starts and ends on non-blank lines of f. */
  ghost predicate NonBlankRangeIn(r: ChompRange, f: FileState)
    reads f
  {
    r.file == f.path && r.startLine < r.endLine <= |f.originalLines| &&
    r.startLine !in f.blanked && r.endLine - 1 !in f.blanked
  }

  /** Every range in rs is a non-blank range of one of the files. */
  ghost predicate AllNonBlankIn(rs: seq<ChompRange>, files: seq<FileState>)
    reads files
  {
    forall r | r in rs :: exists f | f in files :: NonBlankRangeIn(r, f)
  }

  lemma SpanInFile(f: FileState, i: nat, j: nat)
    requires i < j <= |f.NonBlankLineIndices()|
    ensures NonBlankRangeIn(Span(f.path, f.NonBlankLineIndices(), i, j), f)
  {
    var nb := f.NonBlankLineIndices();
    assert forall k | 0 <= k < |nb| :: nb[k] < |f.originalLines| by {
      forall k | 0 <= k < |nb| ensures nb[k] < |f.originalLines| {
        assert nb[k] in nb;
      }
    }
    NonBlankIncreasing(f);
    SpanCovers(f.path, nb, |f.originalLines|, i, j);
  }

  /** Concatenations keep the property of their parts. */
  lemma AllNonBlankInAppend(a: seq<ChompRange>, b: seq<ChompRange>, files: seq<FileState>, more: seq<FileState>)
    requires AllNonBlankIn(a, files) && AllNonBlankIn(b, more)
    ensures AllNonBlankIn(a + b, files + more)
  {
    forall r | r in a + b ensures exists f | f in files + more :: NonBlankRangeIn(r, f) {
      if r in a {
        var f :| f in files && NonBlankRangeIn(r, f);
        assert f in files + more;
      } else {
        var f :| f in more && NonBlankRangeIn(r, f);
        assert f in files + more;
      }
    }
  }

  /** r spans the entries i..j of the non-blank list of one of the entries. */
  ghost predicate SpanOfEntries(es: seq<(string, seq<nat>)>, r: ChompRange)
  {
    exists k, i, j | 0 <= k < |es| && 0 <= i < j <= |es[k].1| :: r == Span(es[k].0, es[k].1, i, j)
  }

  /** Spans of the files' entries are non-blank ranges of those files. */
  lemma SpansInFiles(files: seq<FileState>, rs: seq<ChompRange>)
    requires forall r | r in rs :: SpanOfEntries(Entries(files), r)
    ensures AllNonBlankIn(rs, files)
  {
    var es := Entries(files);
    forall r | r in rs ensures exists f | f in files :: NonBlankRangeIn(r, f) {
      var k, i, j :| 0 <= k < |es| && 0 <= i < j <= |es[k].1| && r == Span(es[k].0, es[k].1, i, j);
      SpanInFile(files[k], i, j);
      assert files[k] in files;
    }
  }

  /** Spans of a prefix of the entries are spans of all of them. */
  lemma SpansOfPrefix(es: seq<(string, seq<nat>)>, m: nat, rs: seq<ChompRange>)
    requires m <= |es| && forall r | r in rs :: SpanOfEntries(es[..m], r)
    ensures forall r | r in rs :: SpanOfEntries(es, r)
  {
    forall r | r in rs ensures SpanOfEntries(es, r) {
      var k, i, j :| 0 <= k < m && 0 <= i < j <= |es[..m][k].1| && r == Span(es[..m][k].0, es[..m][k].1, i, j);
      assert es[..m][k] == es[k];
    }
  }
}
