/**
 * Soft (Polyak) synchronisation of a frozen target network towards its
 * live network: target <- tau * source + (1 - tau) * target, applied to
 * every parameter. A network's parameters are its state dict flattened
 * into one vector of reals.
 */
module Polyak {

  type Params = seq<real>

  function Abs(x: real): (r: real)
    ensures 0.0 <= r && (r == x || r == -x)
  {
    if x < 0.0 then -x else x
  }

  /**
   * One soft update. Each parameter's gap to the source shrinks by the
   * factor (1 - tau); tau = 1 copies the source, tau = 0 keeps the target,
   * and a target equal to its source stays put.
   */
  function SoftUpdate(target: Params, source: Params, tau: real): (r: Params)
    requires |target| == |source|
    ensures |r| == |source|
    ensures tau == 1.0 ==> r == source
    ensures tau == 0.0 ==> r == target
    ensures target == source ==> r == source
  {
    seq(|target|, i requires 0 <= i < |target| => tau * source[i] + (1.0 - tau) * target[i])
  }

  /** n soft updates towards a source that is held fixed. */
  function Repeated(target: Params, source: Params, tau: real, n: nat): (r: Params)
    requires |target| == |source|
    ensures |r| == |source|
    decreases n
  {
    if n == 0 then target else SoftUpdate(Repeated(target, source, tau, n - 1), source, tau)
  }

  /** g scaled n times by the factor c, that is c^n * g. */
  function Scaled(g: real, c: real, n: nat): real
    decreases n
  {
    if n == 0 then g else c * Scaled(g, c, n - 1)
  }

  /** After n soft updates each gap is the initial gap scaled n times by (1 - tau). */
  lemma {:induction false} RepeatedGap(target: Params, source: Params, tau: real, n: nat, i: nat)
    requires |target| == |source| && i < |source|
    ensures Repeated(target, source, tau, n)[i] - source[i] == Scaled(target[i] - source[i], 1.0 - tau, n)
    decreases n
  {
    if n > 0 {
      RepeatedGap(target, source, tau, n - 1, i);
      GapStep(Repeated(target, source, tau, n - 1), source, tau, i);
    }
  }

  /** One soft update scales the gap at index i by (1 - tau). */
  lemma GapStep(target: Params, source: Params, tau: real, i: nat)
    requires |target| == |source| && i < |source|
    ensures SoftUpdate(target, source, tau)[i] - source[i] == (1.0 - tau) * (target[i] - source[i])
  {
  }

  lemma MulShrinks(c: real, a: real)
    requires 0.0 <= c <= 1.0 && 0.0 <= a
    ensures c * a <= a
    ensures c < 1.0 && 0.0 < a ==> c * a < a
  {
  }

  lemma ScaledAbs(c: real, g: real)
    requires 0.0 <= c
    ensures Abs(c * g) == c * Abs(g)
  {
    if g < 0.0 {
      assert c * g == -(c * (-g));
    }
  }

  /**
   * For 0 < tau <= 1 a soft update never moves a parameter away from its
   * source, and strictly closes every gap that is open.
   */
  lemma GapShrinks(target: Params, source: Params, tau: real, i: nat)
    requires |target| == |source| && i < |source|
    requires 0.0 < tau <= 1.0
    ensures Abs(SoftUpdate(target, source, tau)[i] - source[i]) <= Abs(target[i] - source[i])
    ensures target[i] != source[i] ==>
              Abs(SoftUpdate(target, source, tau)[i] - source[i]) < Abs(target[i] - source[i])
  {
    var g := target[i] - source[i];
    var r := SoftUpdate(target, source, tau);
    assert r[i] - source[i] == (1.0 - tau) * g;
    ScaledAbs(1.0 - tau, g);
    MulShrinks(1.0 - tau, Abs(g));
  }

  /**
   * Repeated soft updates close the gap monotonically: the gap after
   * n + 1 updates is never larger than after n.
   */
  lemma RepeatedMonotone(target: Params, source: Params, tau: real, n: nat, i: nat)
    requires |target| == |source| && i < |source|
    requires 0.0 < tau <= 1.0
    ensures Abs(Repeated(target, source, tau, n + 1)[i] - source[i]) <=
            Abs(Repeated(target, source, tau, n)[i] - source[i])
  {
    GapShrinks(Repeated(target, source, tau, n), source, tau, i);
  }

  /** With d = 1 - c in [0, 1], c * (1 + n d) <= 1 + (n - 1) d: 1 + n * tau shrinks by at most one factor c. */
  lemma BernoulliStep(tau: real, n: nat)
    requires 0.0 <= tau <= 1.0 && 1 <= n
    ensures (1.0 - tau) * (1.0 + (n as real) * tau) <= 1.0 + ((n - 1) as real) * tau
  {
    var m := n as real;
    assert (1.0 - tau) * (1.0 + m * tau) == 1.0 + (m - 1.0) * tau - m * (tau * tau);
    assert 0.0 <= tau * tau;
    assert 0.0 <= m * (tau * tau);
  }

  /**
   * One step of the bound: if the previous gap a satisfies a * (1 + (n-1) tau) <= bound,
   * the next gap e = (1 - tau) * a satisfies e * (1 + n tau) <= bound.
   */
  lemma BoundStep(a: real, e: real, tau: real, n: nat, bound: real)
    requires 0.0 <= tau <= 1.0 && 1 <= n
    requires 0.0 <= a && e == (1.0 - tau) * a && a * (1.0 + ((n - 1) as real) * tau) <= bound
    ensures e * (1.0 + (n as real) * tau) <= bound
  {
    var c, m, k := 1.0 - tau, 1.0 + (n as real) * tau, 1.0 + ((n - 1) as real) * tau;
    BernoulliStep(tau, n);
    assert e * m == a * (c * m);
    assert a * (c * m) <= a * k;
  }

  /**
   * The gap after n updates, scaled by 1 + n * tau, never exceeds the
   * initial gap, so it tends to zero as n grows (Bernoulli's inequality).
   */
  lemma {:induction false} ScaledBound(g: real, tau: real, n: nat)
    requires 0.0 <= tau <= 1.0
    ensures Abs(Scaled(g, 1.0 - tau, n)) * (1.0 + (n as real) * tau) <= Abs(g)
    decreases n
  {
    if n > 0 {
      ScaledBound(g, tau, n - 1);
      var c := 1.0 - tau;
      var previous := Scaled(g, c, n - 1);
      assert Scaled(g, c, n) == c * previous;
      ScaledAbs(c, previous);
      BoundStep(Abs(previous), Abs(Scaled(g, c, n)), tau, n, Abs(g));
    }
  }

  /**
   * Repeated soft updates towards a fixed source converge: for 0 < tau <= 1
   * the gap after n updates is at most the initial gap divided by 1 + n * tau.
   */
  lemma RepeatedConverges(target: Params, source: Params, tau: real, n: nat, i: nat)
    requires |target| == |source| && i < |source|
    requires 0.0 < tau <= 1.0
    ensures Abs(Repeated(target, source, tau, n)[i] - source[i]) * (1.0 + (n as real) * tau) <= Abs(target[i] - source[i])
  {
    var g, gap := target[i] - source[i], Repeated(target, source, tau, n)[i] - source[i];
    assert gap == Scaled(g, 1.0 - tau, n) by {
      RepeatedGap(target, source, tau, n, i);
    }
    GapBound(g, gap, tau, n);
  }

  /** ScaledBound for a gap known to equal the scaled initial gap. */
  lemma GapBound(g: real, gap: real, tau: real, n: nat)
    requires 0.0 <= tau <= 1.0 && gap == Scaled(g, 1.0 - tau, n)
    ensures Abs(gap) * (1.0 + (n as real) * tau) <= Abs(g)
  {
    ScaledBound(g, tau, n);
  }
}
