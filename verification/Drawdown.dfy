/** One-pass maximum drawdown, as every engine computes it. */
module Drawdown {
  import opened Reals

  function Fall(peak: real, value: real): real {
    if peak > 0.0 then (peak - value) / peak else 0.0
  }

  function Peak(curve: seq<real>): real
    requires curve != []
  {
    if |curve| == 1 then curve[0] else Max(Peak(curve[..|curve| - 1]), curve[|curve| - 1])
  }

  /** The largest fall from a running peak; an empty or non-positive curve has none. */
  function MaxDrawdown(curve: seq<real>): real {
    if curve == [] then 0.0
    else Max(MaxDrawdown(curve[..|curve| - 1]), Fall(Peak(curve), curve[|curve| - 1]))
  }

  predicate Positive(curve: seq<real>) {
    forall i :: 0 <= i < |curve| ==> curve[i] > 0.0
  }

  lemma {:induction false} PeakIsMaximum(curve: seq<real>) returns (at: nat)
    requires curve != []
    ensures at < |curve| && curve[at] == Peak(curve)
    ensures forall i :: 0 <= i < |curve| ==> curve[i] <= Peak(curve)
  {
    var n := |curve| - 1;
    if n == 0 {
      at := 0;
    } else {
      at := PeakIsMaximum(curve[..n]);
      assert forall i :: 0 <= i < n ==> curve[i] == curve[..n][i];
      if curve[n] > Peak(curve[..n]) {
        at := n;
      }
    }
  }

  lemma FallTimesPeak(peak: real, value: real)
    requires peak > 0.0
    ensures Fall(peak, value) * peak == peak - value
  {}

  lemma FallMonotone(low: real, high: real, value: real)
    requires 0.0 < low <= high && value > 0.0
    ensures Fall(low, value) <= Fall(high, value) < 1.0
  {
    hide Fall;
    FallTimesPeak(low, value);
    FallTimesPeak(high, value);
    FallOrder(Fall(low, value), low, Fall(high, value), high, value);
  }

  lemma FallOrder(x: real, low: real, y: real, high: real, value: real)
    requires 0.0 < low <= high && value > 0.0 && x * low == low - value && y * high == high - value
    ensures x <= y < 1.0
  {
    assert low * (1.0 - x) == value && high * (1.0 - y) == value;
    CancelStrictly(high, 0.0, 1.0 - y);
    ScaleKeepsOrder(1.0 - y, low, high);
    CancelFactor(low, 1.0 - y, 1.0 - x);
  }

  /**
   * On a positive curve the one-pass drawdown is the largest relative fall from any point to any later one, it is
   * attained, and it lies in [0, 1).
   */
  lemma {:induction false} DrawdownIsWorstPair(curve: seq<real>) returns (top: nat, bottom: nat)
    requires Positive(curve) && curve != []
    ensures top <= bottom < |curve| && MaxDrawdown(curve) == Fall(curve[top], curve[bottom])
    ensures forall i, j :: 0 <= i <= j < |curve| ==> Fall(curve[i], curve[j]) <= MaxDrawdown(curve)
    ensures 0.0 <= MaxDrawdown(curve) < 1.0
  {
    hide Fall;
    var n := |curve| - 1;
    var front := curve[..n];
    var at := PeakIsMaximum(curve);
    forall i | 0 <= i <= n ensures Fall(curve[i], curve[n]) <= Fall(Peak(curve), curve[n]) < 1.0 {
      FallMonotone(curve[i], Peak(curve), curve[n]);
    }
    NoFallAtPoint(curve[n]);
    if n == 0 {
      top, bottom := 0, 0;
    } else {
      top, bottom := DrawdownIsWorstPair(front);
      assert forall i :: 0 <= i < n ==> curve[i] == front[i];
      if Fall(Peak(curve), curve[n]) > MaxDrawdown(front) {
        top, bottom := at, n;
      }
    }
  }

  lemma NoFallAtPoint(x: real)
    ensures Fall(x, x) == 0.0
  {}

  /** The loop of `max_drawdown_from_equity`: the peak starts below every value. */
  method MaxDrawdownOf(curve: seq<real>) returns (worst: real)
    ensures worst == MaxDrawdown(curve)
  {
    hide Fall;
    worst := 0.0;
    var peak := 0.0;
    for i := 0 to |curve|
      invariant i > 0 ==> peak == Peak(curve[..i])
      invariant worst == MaxDrawdown(curve[..i])
    {
      assert curve[..i + 1][..i] == curve[..i];
      if i == 0 || curve[i] > peak {
        peak := curve[i];
      }
      var fall := Fall(peak, curve[i]);
      if fall > worst {
        worst := fall;
      }
    }
    assert curve[..|curve|] == curve;
  }
}
