/**
 The adaptive thresholds handed to the Canny edge detector: from the median
 intensity v of the blurred grey image, the lower threshold is (1 - sigma)*v
 clamped below at 0 and the upper one is (1 + sigma)*v clamped above at 255,
 each truncated to an integer, with sigma = 0.25.
 */
module EdgeThresholds {

  const Sigma: real := 0.25

  datatype Thresholds = Thresholds(lower: int, upper: int)

  /** Python's `int()` on a float: truncation toward zero. */
  function Trunc(x: real): (r: int)
    ensures x >= 0.0 ==> 0 <= r && r as real <= x < r as real + 1.0
    ensures x < 0.0 ==> r <= 0 && r as real - 1.0 < x <= r as real
  {
    if x >= 0.0 then x.Floor else -((-x).Floor)
  }

  /**
   Lower and upper Canny thresholds for a median intensity `v`. Python's
   `max(0, a)` yields `a` only when it is strictly larger than 0, and
   `min(255, b)` yields `b` only when it is strictly smaller than 255.
   Whatever `v` is, the lower threshold is never negative and the upper one
   never exceeds 255.
   */
  function CannyThresholds(v: real): (t: Thresholds)
    ensures 0 <= t.lower
    ensures t.upper <= 255
  {
    var low := (1.0 - Sigma) * v;
    var high := (1.0 + Sigma) * v;
    Thresholds(Trunc(if low > 0.0 then low else 0.0), Trunc(if high < 255.0 then high else 255.0))
  }

  /**
   For a median in the range an 8-bit image can produce, the thresholds are
   ordered and within the byte range: the lower one is the floor of 0.75*v and
   the upper one the floor of 1.25*v, saturating at 255 from v = 204 on.
   */
  lemma ThresholdsInByteRange(v: real)
    requires 0.0 <= v <= 255.0
    ensures 0 <= CannyThresholds(v).lower <= CannyThresholds(v).upper <= 255
    ensures CannyThresholds(v).lower == (0.75 * v).Floor
    ensures v < 204.0 ==> CannyThresholds(v).upper == (1.25 * v).Floor
    ensures v >= 204.0 ==> CannyThresholds(v).upper == 255
  {
  }

  /** A higher median never lowers either threshold. */
  lemma ThresholdsMonotone(v: real, v': real)
    requires v <= v'
    ensures CannyThresholds(v).lower <= CannyThresholds(v').lower
    ensures CannyThresholds(v).upper <= CannyThresholds(v').upper
  {
  }
}
