/**
 * Per-cycle figures: the mean confidence of the kept detections, the confidence
 * percentage written to telemetry, the smoothed processing rate, and which frames
 * are sampled.
 */
module Metrics {

  /** Mean confidence in percent of `count` detections whose confidences add up to `sum`; 0 for none. */
  function MeanConfidence(sum: real, count: nat): (mean: real)
    ensures count == 0 ==> mean == 0.0
  {
    if count > 0 then sum / count as real * 100.0 else 0.0
  }

  /** For at least one detection, the mean times the count is the sum in percent. */
  lemma MeanConfidenceScales(sum: real, count: nat)
    requires count > 0
    ensures MeanConfidence(sum, count) * count as real == sum * 100.0
  {
    var q := sum / count as real;
    assert q * count as real == sum;
  }

  /** A sum of confidences in [0, 1] gives a mean confidence in [0, 100]. */
  lemma MeanConfidenceBounded(sum: real, count: nat)
    requires 0.0 <= sum <= count as real
    ensures 0.0 <= MeanConfidence(sum, count) <= 100.0
  {
    if count > 0 {
      MeanConfidenceScales(sum, count);
      var n := count as real;
      var q := sum / n;
      assert q * n == sum;
      assert 0.0 <= q <= 1.0;
    }
  }

  /** Nearest integer, ties to the even neighbour (Python's `round`). */
  function RoundHalfEven(x: real): (n: int)
    ensures x - 0.5 <= n as real <= x + 0.5
    ensures (n as real - x == 0.5 || x - n as real == 0.5) ==> n % 2 == 0
  {
    var f := x.Floor;
    var frac := x - f as real;
    if frac < 0.5 then f
    else if frac > 0.5 then f + 1
    else if f % 2 == 0 then f else f + 1
  }

  /** `round(conf * 100, 1)`: the confidence as a percentage with one decimal. */
  function ConfidencePct(conf: real): (pct: real)
    ensures -0.05 <= pct - conf * 100.0 <= 0.05
    ensures 0.0 <= conf <= 1.0 ==> 0.0 <= pct <= 100.0
    ensures (pct * 10.0).Floor as real == pct * 10.0
  {
    RoundHalfEven(conf * 1000.0) as real / 10.0
  }

  /** Smallest elapsed time the rate divides by. */
  const RATE_FLOOR: real := 0.00001

  /** Frames per second measured over one frame. */
  function InstantRate(elapsed: real): (rate: real)
  {
    1.0 / (if elapsed > RATE_FLOOR then elapsed else RATE_FLOOR)
  }

  /**
   * The instantaneous rate is the reciprocal of the elapsed time, which is floored
   * at RATE_FLOOR, so it is positive and at most 100000 frames per second.
   */
  lemma InstantRateBounds(elapsed: real)
    ensures 0.0 < InstantRate(elapsed) <= 100000.0
    ensures elapsed >= RATE_FLOOR ==> InstantRate(elapsed) * elapsed == 1.0
  {
    var d := if elapsed > RATE_FLOOR then elapsed else RATE_FLOOR;
    assert InstantRate(elapsed) * d == 1.0;
  }

  /** The displayed rate: 85% of the previous value and 15% of the instantaneous one. */
  function SmoothRate(previous: real, elapsed: real): (rate: real)
    ensures rate - InstantRate(elapsed) == 0.85 * (previous - InstantRate(elapsed))
  {
    0.85 * previous + 0.15 * InstantRate(elapsed)
  }

  /** The smoothed rate lies between the previous rate and the instantaneous one. */
  lemma SmoothRateBetween(previous: real, elapsed: real)
    ensures previous <= InstantRate(elapsed) ==> previous <= SmoothRate(previous, elapsed) <= InstantRate(elapsed)
    ensures InstantRate(elapsed) <= previous ==> InstantRate(elapsed) <= SmoothRate(previous, elapsed) <= previous
  {
  }

  /**
   * Whether frame number `frame` is run through detection, one frame in every `skip`:
   * frame 0, frame skip, frame 2 * skip, and so on.
   */
  predicate Sampled(frame: nat, skip: int)
    requires skip > 0
    decreases frame
  {
    if frame < skip then frame == 0 else Sampled(frame - skip, skip)
  }

  /** A frame is sampled exactly when its number is a multiple of the interval. */
  lemma {:induction false} SampledIsMultiple(frame: nat, skip: int)
    requires skip > 0
    ensures Sampled(frame, skip) <==> frame % skip == 0
    decreases frame
  {
    if frame < skip {
      DivMod(frame, skip, 0, frame);
    } else {
      SampledIsMultiple(frame - skip, skip);
      DivMod(frame, skip, (frame - skip) / skip + 1, (frame - skip) % skip);
    }
  }

  /** The first frame is always sampled, so an unsampled frame is never the first. */
  lemma FirstFrameSampled(frame: nat, skip: int)
    requires skip > 0
    ensures Sampled(0, skip)
    ensures !Sampled(frame, skip) ==> frame > 0
  {
  }

  /** How many of the frames 0 .. n-1 are sampled. */
  function SampledCount(n: nat, skip: int): nat
    requires skip > 0
  {
    if n == 0 then 0 else SampledCount(n - 1, skip) + (if Sampled(n - 1, skip) then 1 else 0)
  }

  lemma MulAtLeast(k: int, d: int)
    requires k >= 1 && d > 0
    ensures k * d >= d
  {
    assert k * d == (k - 1) * d + d;
  }

  lemma DivMod(a: int, d: int, q: int, r: int)
    requires d > 0 && 0 <= r < d && a == q * d + r
    ensures a / d == q && a % d == r
  {
    var q', r' := a / d, a % d;
    assert (q - q') * d == r' - r by {
      assert a == q' * d + r';
      assert q * d - q' * d == (q - q') * d;
    }
    if q > q' {
      MulAtLeast(q - q', d);
    } else if q < q' {
      MulAtLeast(q' - q, d);
    }
  }

  /** Of the first n frames, exactly ceil(n / skip) are sampled; frame 0 always is. */
  lemma {:induction false} SampledCountIsCeiling(n: nat, skip: int)
    requires skip > 0
    ensures SampledCount(n, skip) == (n + skip - 1) / skip
  {
    if n == 0 {
      DivMod(skip - 1, skip, 0, skip - 1);
    } else {
      SampledCountIsCeiling(n - 1, skip);
      SampledIsMultiple(n - 1, skip);
      var q, r := (n - 1) / skip, (n - 1) % skip;
      DivMod(n - 1 + skip, skip, q + 1, r);
      if r == 0 {
        DivMod(n - 2 + skip, skip, q, skip - 1);
      } else {
        DivMod(n - 2 + skip, skip, q + 1, r - 1);
      }
    }
  }
}
