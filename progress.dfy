/**
 * Chomp counters (chompie/src/progress.rs). The wall-clock start time and
 * the percentage display are not part of this model.
 */
module Progress {

  /** How many of the outcomes are successes. */
  function Successes(outcomes: seq<bool>): (n: nat)
    ensures n <= |outcomes|
    ensures n == 0 <==> forall i | 0 <= i < |outcomes| :: !outcomes[i]
  {
    if outcomes == [] then 0
    else Successes(outcomes[..|outcomes| - 1]) + (if outcomes[|outcomes| - 1] then 1 else 0)
  }

  class ProgressTracker {
    const totalRanges: nat
    var chompsPerformed: nat
    var successfulChomps: nat
    /** The outcomes recorded so far, oldest first. */
    ghost var history: seq<bool>

    ghost predicate Valid()
      reads this
    {
      chompsPerformed == |history| && successfulChomps == Successes(history)
    }

    constructor (totalRanges: nat)
      ensures Valid() && history == []
      ensures this.totalRanges == totalRanges && chompsPerformed == 0 && successfulChomps == 0
    {
      this.totalRanges := totalRanges;
      chompsPerformed := 0;
      successfulChomps := 0;
      history := [];
    }

    /** One more chomp; one more success exactly when it succeeded. */
    method RecordChomp(success: bool)
      requires Valid()
      modifies this
      ensures Valid() && history == old(history) + [success]
      ensures chompsPerformed == old(chompsPerformed) + 1
      ensures successfulChomps == old(successfulChomps) + (if success then 1 else 0)
      ensures successfulChomps <= chompsPerformed
    {
      assert (history + [success])[..|history|] == history;
      chompsPerformed := chompsPerformed + 1;
      if success {
        successfulChomps := successfulChomps + 1;
      }
      history := history + [success];
    }

    function ChompsPerformed(): nat
      reads this
    {
      chompsPerformed
    }

    function SuccessfulChomps(): (n: nat)
      requires Valid()
      reads this
      ensures n <= ChompsPerformed()
    {
      successfulChomps
    }
  }

  /** A tracker records each outcome in turn. */
  method Track(total: nat, outcomes: seq<bool>) returns (performed: nat, successful: nat)
    ensures performed == |outcomes| && successful == Successes(outcomes)
  {
    var t := new ProgressTracker(total);
    var i := 0;
    while i < |outcomes|
      invariant 0 <= i <= |outcomes|
      invariant t.Valid() && t.history == outcomes[..i]
    {
      t.RecordChomp(outcomes[i]);
      assert outcomes[..i + 1] == outcomes[..i] + [outcomes[i]];
      i := i + 1;
    }
    assert outcomes[..i] == outcomes;
    performed, successful := t.ChompsPerformed(), t.SuccessfulChomps();
  }

  /** A fresh tracker has done nothing; recording a success then a failure gives (2, 1). */
  method SuccessThenFailure() returns (initial: (nat, nat), after: (nat, nat))
    ensures initial == (0, 0) && after == (2, 1)
  {
    var t := new ProgressTracker(10);
    initial := (t.ChompsPerformed(), t.SuccessfulChomps());
    t.RecordChomp(true);
    t.RecordChomp(false);
    after := (t.ChompsPerformed(), t.SuccessfulChomps());
  }

  /** Successes split over concatenation. */
  lemma {:induction false} SuccessesAppend(a: seq<bool>, b: seq<bool>)
    ensures Successes(a + b) == Successes(a) + Successes(b)
    decreases |b|
  {
    if b == [] {
      assert a + b == a;
    } else {
      var b' := b[..|b| - 1];
      assert (a + b)[..|a + b| - 1] == a + b';
      SuccessesAppend(a, b');
    }
  }
}
