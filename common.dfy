/** Small shared vocabulary: optional values and sums of frame durations. */
module Common {

  /** A value that may be absent; stands for C#'s nullable ids and references. */
  datatype Option<T> = None | Some(value: T)

  /** Sum of a sequence of durations, taken from the last element so that it
      grows the way a per-frame accumulator does. */
  function Sum(s: seq<real>): real
  {
    if s == [] then 0.0 else Sum(s[..|s| - 1]) + s[|s| - 1]
  }

  /** Every duration in `s` is at least `lo`. */
  predicate AllAtLeast(s: seq<real>, lo: real)
  {
    forall i :: 0 <= i < |s| ==> s[i] >= lo
  }

  /** A sum of non-negative durations is non-negative. */
  lemma {:induction false} SumNonNegative(s: seq<real>)
    requires AllAtLeast(s, 0.0)
    ensures Sum(s) >= 0.0
  {
    if s != [] {
      SumNonNegative(s[..|s| - 1]);
    }
  }

  /** `n` equal durations `x`, such as `n` AI intervals. */
  function Repeat(x: real, n: nat): (s: seq<real>)
    ensures |s| == n && forall i :: 0 <= i < n ==> s[i] == x
  {
    seq(n, _ => x)
  }

  /** `n` equal durations add up to `n` times the duration. */
  lemma {:induction false} SumRepeat(x: real, n: nat)
    ensures Sum(Repeat(x, n)) == n as real * x
  {
    if n > 0 {
      assert Repeat(x, n)[..n - 1] == Repeat(x, n - 1);
      SumRepeat(x, n - 1);
    }
  }
}
