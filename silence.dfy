/**
 * `generate_silence`: a buffer of zero-valued samples, `int(duration * sr)`
 * of them. Durations and sample products are exact reals here; the
 * floating-point rounding of the product is not modelled.
 */
module Silence {
  import opened Wrappers

  /** `np.zeros(n)` refuses a negative length with a ValueError. */
  datatype SilenceError = NegativeDimensions(count: int)

  /** `np.zeros(n)` for a length the caller has already made a natural number. */
  function Zeros(n: nat): (samples: seq<real>)
    ensures |samples| == n
    ensures forall i :: 0 <= i < n ==> samples[i] == 0.0
  {
    seq(n, _ => 0.0)
  }

  /** Python's `int(x)` on a number: the integer part, rounding toward zero. */
  function TruncateTowardZero(x: real): (n: int)
    ensures 0.0 <= x ==> 0 <= n && n as real <= x < n as real + 1.0
    ensures x < 0.0 ==> n <= 0 && n as real - 1.0 < x <= n as real
  {
    if x >= 0.0 then x.Floor else -((-x).Floor)
  }

  /**
   * `generate_silence(duration, sr)`: `int(duration * sr)` zeros, or the
   * error `np.zeros` raises when that count is negative. A product between
   * -1 and 0 truncates to 0 and gives an empty buffer, not an error.
   */
  function GenerateSilence(duration: real, sr: int): (r: Result<seq<real>, SilenceError>)
    ensures r.Ok? <==> duration * sr as real > -1.0
    ensures r.Ok? && duration * sr as real >= 0.0 ==>
      |r.value| as real <= duration * sr as real < |r.value| as real + 1.0
    ensures r.Ok? && duration * sr as real < 0.0 ==> r.value == []
    ensures r.Ok? ==> forall i :: 0 <= i < |r.value| ==> r.value[i] == 0.0
  {
    var count := TruncateTowardZero(duration * sr as real);
    if count < 0 then Err(NegativeDimensions(count)) else Ok(Zeros(count))
  }

  /** For a non-negative duration and rate the buffer holds floor(duration * sr) zeros. */
  lemma SilenceLength(duration: real, sr: int)
    requires duration >= 0.0 && sr >= 0
    ensures GenerateSilence(duration, sr).Ok?
    ensures |GenerateSilence(duration, sr).value| == (duration * sr as real).Floor
  {
  }

  /** One second at 48000 Hz is 48000 zero samples. */
  lemma OneSecondAt48kHz()
    ensures GenerateSilence(1.0, 48000) == Ok(Zeros(48000))
  {
  }
}
