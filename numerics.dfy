/**
 * The element-wise arithmetic of a TD3+BC training step, in exact real
 * arithmetic: clamping of the smoothing noise and of the next action, the
 * pessimistic (minimum of two critics) target value, and the mean-squared
 * error used as the critic loss.
 */
module Numerics {

  function Min(a: real, b: real): (r: real)
    ensures r <= a && r <= b
    ensures r == a || r == b
  {
    if a <= b then a else b
  }

  function Max(a: real, b: real): (r: real)
    ensures a <= r && b <= r
    ensures r == a || r == b
  {
    if a <= b then b else a
  }

  /**
   * torch.clamp(x, lo, hi), which computes min(max(x, lo), hi): when the
   * bounds are crossed (lo > hi) every element becomes hi.
   */
  function Clamp(x: real, lo: real, hi: real): (r: real)
    ensures lo <= hi ==> lo <= r <= hi
    ensures lo <= x <= hi ==> r == x
    ensures x < lo && lo <= hi ==> r == lo
    ensures hi < x ==> r == hi
    ensures hi < lo ==> r == hi
  {
    Min(Max(x, lo), hi)
  }

  function ClampAll(v: seq<real>, lo: real, hi: real): (r: seq<real>)
    ensures |r| == |v|
    ensures forall i :: 0 <= i < |v| ==> r[i] == Clamp(v[i], lo, hi)
  {
    seq(|v|, i requires 0 <= i < |v| => Clamp(v[i], lo, hi))
  }

  function Scale(v: seq<real>, c: real): (r: seq<real>)
    ensures |r| == |v|
    ensures forall i :: 0 <= i < |v| ==> r[i] == v[i] * c
  {
    seq(|v|, i requires 0 <= i < |v| => v[i] * c)
  }

  function Add(u: seq<real>, v: seq<real>): (r: seq<real>)
    requires |u| == |v|
    ensures |r| == |u|
    ensures forall i :: 0 <= i < |u| ==> r[i] == u[i] + v[i]
  {
    seq(|u|, i requires 0 <= i < |u| => u[i] + v[i])
  }

  /**
   * Target-policy smoothing noise for one transition: a standard-normal
   * sample (supplied by the caller) scaled by policy_noise and clipped to
   * [-noise_clip, noise_clip]. Within the clip range the scaled sample is
   * passed through unchanged.
   */
  function SmoothingNoise(gauss: seq<real>, policyNoise: real, noiseClip: real): (noise: seq<real>)
    ensures |noise| == |gauss|
    ensures 0.0 <= noiseClip ==> forall i :: 0 <= i < |noise| ==> -noiseClip <= noise[i] <= noiseClip
    ensures forall i :: 0 <= i < |gauss| && -noiseClip <= gauss[i] * policyNoise <= noiseClip ==>
              noise[i] == gauss[i] * policyNoise
  {
    ClampAll(Scale(gauss, policyNoise), -noiseClip, noiseClip)
  }

  /**
   * The smoothed next action: the target actor's output plus the noise,
   * clipped to [-max_action, max_action]. The bound holds whatever the
   * target actor produced.
   */
  function SmoothedAction(raw: seq<real>, noise: seq<real>, maxAction: real): (a: seq<real>)
    requires |raw| == |noise|
    ensures |a| == |raw|
    ensures 0.0 <= maxAction ==> forall i :: 0 <= i < |a| ==> -maxAction <= a[i] <= maxAction
    ensures forall i :: 0 <= i < |a| && -maxAction <= raw[i] + noise[i] <= maxAction ==>
              a[i] == raw[i] + noise[i]
  {
    ClampAll(Add(raw, noise), -maxAction, maxAction)
  }

  lemma MulMonotone(c: real, x: real, y: real)
    requires 0.0 <= c && x <= y
    ensures c * x <= c * y
  {
  }

  /**
   * One Bellman target: reward + (1 - done) * discount * min(q1, q2).
   * It is never above the target either critic alone would give (for a
   * non-negative discount and done <= 1), it is exactly the pessimistic
   * critic's target, and a terminal transition (done = 1) yields the
   * reward alone.
   */
  function TargetValue(reward: real, done: real, discount: real, q1: real, q2: real): (y: real)
    ensures done == 1.0 ==> y == reward
    ensures 0.0 <= discount && done <= 1.0 ==>
              y <= reward + (1.0 - done) * discount * q1 &&
              y <= reward + (1.0 - done) * discount * q2
    ensures q2 <= q1 ==> y == reward + (1.0 - done) * discount * q2
    ensures q1 <= q2 ==> y == reward + (1.0 - done) * discount * q1
  {
    var c := (1.0 - done) * discount;
    if 0.0 <= discount && done <= 1.0 then
      MulMonotone(1.0 - done, 0.0, discount);
      MulMonotone(c, Min(q1, q2), q1);
      MulMonotone(c, Min(q1, q2), q2);
      reward + c * Min(q1, q2)
    else
      reward + c * Min(q1, q2)
  }

  /**
   * Real multiplication behind a function, so that facts about a square are
   * stated on one term; the solver handles `x * x` poorly once it is equated
   * with another term.
   */
  function Mul(a: real, b: real): real
  {
    a * b
  }

  lemma MulPositive(a: real, b: real)
    requires 0.0 < a && 0.0 < b
    ensures 0.0 < Mul(a, b)
  {
  }

  lemma MulNegated(a: real)
    ensures Mul(-a, -a) == Mul(a, a)
  {
  }

  function Square(x: real): real
  {
    Mul(x, x)
  }

  lemma SquareFacts(x: real)
    ensures 0.0 <= Square(x)
    ensures Square(x) == 0.0 <==> x == 0.0
  {
    if x < 0.0 {
      MulPositive(-x, -x);
      MulNegated(x);
    } else if 0.0 < x {
      MulPositive(x, x);
    }
  }

  /** Sum of squared differences. */
  function SumSquares(u: seq<real>, v: seq<real>): real
    requires |u| == |v|
    decreases |u|
  {
    if |u| == 0 then 0.0 else Square(u[0] - v[0]) + SumSquares(u[1..], v[1..])
  }

  /** A sum of squared differences is never negative, and zero exactly when the sequences agree. */
  lemma {:induction false} SumSquaresZero(u: seq<real>, v: seq<real>)
    requires |u| == |v|
    ensures 0.0 <= SumSquares(u, v)
    ensures SumSquares(u, v) == 0.0 <==> u == v
    decreases |u|
  {
    if |u| > 0 {
      SquareFacts(u[0] - v[0]);
      SumSquaresZero(u[1..], v[1..]);
      assert u == [u[0]] + u[1..] && v == [v[0]] + v[1..];
    }
  }

  /**
   * F.mse_loss with mean reduction over a non-empty batch: never negative,
   * and zero exactly when the prediction matches the target everywhere.
   */
  function Mse(prediction: seq<real>, target: seq<real>): (r: real)
    requires |prediction| == |target| && |prediction| > 0
    ensures 0.0 <= r
    ensures r == 0.0 <==> prediction == target
  {
    SumSquaresZero(prediction, target);
    SumSquares(prediction, target) / (|prediction| as real)
  }
}
