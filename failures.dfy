/** The failure counters of the writer (writeFailures, rotationFailures):
    uint64 tallies of failures whose report could not be emitted. */
module Failures {

  const Uint64Modulus: int := 0x1_0000_0000_0000_0000

  type Uint64 = x: int | 0 <= x < Uint64Modulus

  /** `c += 1` on a Go uint64: wraps to 0 past the maximum. */
  function Inc(c: Uint64): (r: Uint64)
    ensures r == (c + 1) % Uint64Modulus
  {
    if c == Uint64Modulus - 1 then 0 else c + 1
  }

  /** The outcomes of the two diagnostic emissions a bookkeeping call may
      attempt: the backlog summary ("Dropped N previous ...") and the report
      of the current failure. An emission that is not attempted is ignored. */
  datatype Emits = Emits(summaryOk: bool, failureOk: bool)

  /** The counter after one bookkeeping call (handleWriteFailure or
      handleRotationFailure) given the counter before it, whether there is a
      current error, and the emission outcomes. Written as the table of
      outcomes rather than in the code's sequential form. */
  function FailureStep(c: Uint64, failed: bool, e: Emits): (r: Uint64)
    // No current error: the counter never grows, and it drops (to 0) only
    // when the summary of a nonzero backlog is emitted.
    ensures !failed ==> (r == c || r == 0)
    ensures !failed ==> (r == 0 <==> c == 0 || e.summaryOk)
    // A current error adds at most one: c + 1 when the backlog summary
    // could not be emitted, otherwise 1 or 0 as the report itself fails or not.
    ensures failed && c != 0 && !e.summaryOk ==> r == (c + 1) % Uint64Modulus
    ensures failed && (c == 0 || e.summaryOk) ==> (r == 1 <==> !e.failureOk) && (r == 0 <==> e.failureOk)
  {
    if c != 0 && !e.summaryOk then (if failed then Inc(c) else c)
    else if failed && !e.failureOk then 1
    else 0
  }

  /** The counter after k consecutive failures none of whose diagnostics
      could be emitted. */
  function SilentFailures(c: Uint64, k: nat): Uint64
    decreases k
  {
    if k == 0 then c else SilentFailures(FailureStep(c, true, Emits(false, false)), k - 1)
  }

  /** Failures that cannot be reported are folded into the backlog one by
      one: nothing is lost except through uint64 wrap-around. */
  lemma {:induction false} SilentFailuresAccumulate(c: Uint64, k: nat)
    ensures SilentFailures(c, k) == (c + k) % Uint64Modulus
    decreases k
  {
    if k > 0 {
      var c' := FailureStep(c, true, Emits(false, false));
      assert c' == (c + 1) % Uint64Modulus;
      SilentFailuresAccumulate(c', k - 1);
    }
  }
}
