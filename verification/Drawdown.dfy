/** One-pass drawdown of app/analysis/range_behavior.py. */
module Drawdown {
  import opened Prelude

  /** The fall from one price to another, in percent of the first. */
  function Fall(from: real, to: real): real
    requires from > 0.0
  {
    (from - to) / from * 100.0
  }

  function Peak(prices: seq<real>): real
    requires prices != []
  {
    var n := |prices| - 1;
    if n == 0 then prices[0] else Max(Peak(prices[..n]), prices[n])
  }

  /** The worst fall from a running peak; a peak that is not positive is skipped. */
  function MaxDrawdown(prices: seq<real>): real {
    if prices == [] then 0.0
    else
      var n := |prices| - 1;
      Deepened(MaxDrawdown(prices[..n]), Peak(prices), prices[n])
  }

  function Deepened(worst: real, peak: real, price: real): real {
    if peak <= 0.0 then worst else Max(worst, Fall(peak, price))
  }

  method MaxDrawdownPct(prices: seq<real>) returns (r: Option<real>)
    ensures r == if prices == [] then None else Some(MaxDrawdown(prices))
  {
    if prices == [] {
      return None;
    }
    var peak := prices[0];
    var worst := 0.0;
    var i := 0;
    while i < |prices|
      invariant 0 <= i <= |prices|
      invariant peak == if i == 0 then prices[0] else Peak(prices[..i])
      invariant worst == MaxDrawdown(prices[..i])
    {
      assert prices[..i + 1][..i] == prices[..i];
      peak := Max(peak, prices[i]);
      if peak > 0.0 {
        worst := Max(worst, Fall(peak, prices[i]));
      }
      i := i + 1;
    }
    assert prices[..i] == prices;
    r := Some(worst);
  }

  // ----- the quadratic specification -----

  ghost predicate NonNegative(prices: seq<real>) {
    forall i :: 0 <= i < |prices| ==> prices[i] >= 0.0
  }

  /** The worst fall over all ordered pairs of prices. */
  ghost predicate IsWorstFall(prices: seq<real>, worst: real) {
    && (forall i, j :: 0 <= i <= j < |prices| && prices[i] > 0.0 ==> Fall(prices[i], prices[j]) <= worst)
    && (worst == 0.0 || exists i, j :: 0 <= i <= j < |prices| && prices[i] > 0.0 && worst == Fall(prices[i], prices[j]))
  }

  lemma {:induction false} PeakIsGreatest(prices: seq<real>)
    requires prices != []
    ensures forall i :: 0 <= i < |prices| ==> prices[i] <= Peak(prices)
    ensures exists i :: 0 <= i < |prices| && prices[i] == Peak(prices)
  {
    var n := |prices| - 1;
    assert prices[n] in prices;
    if n > 0 {
      PeakIsGreatest(prices[..n]);
      var k :| 0 <= k < n && prices[..n][k] == Peak(prices[..n]);
      assert prices[if Peak(prices) == prices[n] then n else k] == Peak(prices);
    } else {
      assert prices[0] == Peak(prices);
    }
  }

  /** A fall is larger from a higher peak, as long as it does not end below zero. */
  lemma FallFromHigher(low: real, high: real, to: real)
    requires 0.0 < low <= high && to >= 0.0
    ensures Fall(low, to) <= Fall(high, to)
    ensures Fall(high, to) <= 100.0
    ensures to > 0.0 ==> Fall(high, to) < 100.0
    ensures Fall(high, to) > 0.0 <==> to < high
  {
    var p, q := (low - to) / low, (high - to) / high;
    assert p * low == low - to && q * high == high - to;
    LessTimes(q, 1.0, high);
    LessTimes(1.0, q, high);
    LessTimes(0.0, q, high);
    assert (1.0 - p) * low == to && (1.0 - q) * high == to;
    assert (1.0 - q) * (high - low) >= 0.0;
    LessTimes(1.0 - p, 1.0 - q, low);
  }

  /** For prices that are never negative the single pass computes the worst fall over all pairs. */
  lemma {:induction false} OnePassIsQuadratic(prices: seq<real>)
    requires NonNegative(prices)
    ensures IsWorstFall(prices, MaxDrawdown(prices)) && MaxDrawdown(prices) >= 0.0
  {
    if prices != [] {
      var n := |prices| - 1;
      var before := MaxDrawdown(prices[..n]);
      OnePassIsQuadratic(prices[..n]);
      PeakIsGreatest(prices);
      assert forall i :: 0 <= i < n ==> prices[..n][i] == prices[i];
      if Peak(prices) > 0.0 {
        forall i | 0 <= i <= n && prices[i] > 0.0
          ensures Fall(prices[i], prices[n]) <= Fall(Peak(prices), prices[n])
        {
          FallFromHigher(prices[i], Peak(prices), prices[n]);
        }
        if MaxDrawdown(prices) == before && before != 0.0 {
          var i, j :| 0 <= i <= j < n && prices[..n][i] > 0.0 && before == Fall(prices[..n][i], prices[..n][j]);
          assert before == Fall(prices[i], prices[j]);
        }
      }
    }
  }

  /** There is only one worst fall. */
  lemma WorstFallUnique(prices: seq<real>, a: real, b: real)
    requires IsWorstFall(prices, a) && IsWorstFall(prices, b) && a >= 0.0 && b >= 0.0
    ensures a == b
  {
  }

  /** Positive prices lose less than everything, and nothing exactly when they never fall. */
  lemma DrawdownRange(prices: seq<real>)
    requires forall i :: 0 <= i < |prices| ==> prices[i] > 0.0
    ensures 0.0 <= MaxDrawdown(prices) < 100.0
    ensures MaxDrawdown(prices) == 0.0 <==> forall i, j :: 0 <= i <= j < |prices| ==> prices[i] <= prices[j]
  {
    OnePassIsQuadratic(prices);
    forall i, j | 0 <= i <= j < |prices|
      ensures Fall(prices[i], prices[j]) < 100.0
      ensures Fall(prices[i], prices[j]) > 0.0 <==> prices[j] < prices[i]
    {
      FallFromHigher(prices[i], prices[i], prices[j]);
    }
  }

  /** More points never shrink the drawdown. */
  lemma {:induction false} DrawdownGrows(prices: seq<real>, more: seq<real>)
    ensures MaxDrawdown(prices) <= MaxDrawdown(prices + more)
  {
    if more == [] {
      assert prices + more == prices;
    } else {
      DrawdownGrows(prices, more[..|more| - 1]);
      assert (prices + more)[..|prices + more| - 1] == prices + more[..|more| - 1];
    }
  }
}
