/**
 * The outcome of one run of the user's command
 * (chompie/src/command_runner.rs): captured output, error output and exit
 * status, and the comparison the engine uses against the baseline.
 */
module CommandRunner {
  /** A process exit code, as Rust's i32. */
  newtype i32 = x: int | -0x8000_0000 <= x < 0x8000_0000

  datatype RunResult = RunResult(stdout: string, stderr: string, exitCode: i32)

  /** Field-by-field comparison of two runs: the same as equality of results. */
  function IsIdentical(a: RunResult, b: RunResult): (same: bool)
    ensures same <==> a == b
  {
    a.stdout == b.stdout && a.stderr == b.stderr && a.exitCode == b.exitCode
  }

  /** Identity is an equivalence: reflexive, symmetric and transitive. */
  lemma IdenticalIsEquivalence(a: RunResult, b: RunResult, c: RunResult)
    ensures IsIdentical(a, a)
    ensures IsIdentical(a, b) ==> IsIdentical(b, a)
    ensures IsIdentical(a, b) && IsIdentical(b, c) ==> IsIdentical(a, c)
  {
  }

  /** A difference in any one field alone is enough to tell two runs apart. */
  lemma OneFieldDiffers(a: RunResult)
    ensures forall s :: s != a.stdout ==> !IsIdentical(a, a.(stdout := s))
    ensures forall s :: s != a.stderr ==> !IsIdentical(a, a.(stderr := s))
    ensures forall c :: c != a.exitCode ==> !IsIdentical(a, a.(exitCode := c))
  {
  }

  /** The source's examples: equal triples are identical, "test1" and "test2" are not. */
  lemma IdenticalExamples()
    ensures IsIdentical(RunResult("test", "", 0), RunResult("test", "", 0))
    ensures !IsIdentical(RunResult("test1", "", 0), RunResult("test2", "", 0))
    ensures !IsIdentical(RunResult("ok", "", 0), RunResult("ok", "warning", 0))
  {
    assert "test1"[4] != "test2"[4];
    assert |""| != |"warning"|;
  }
}
