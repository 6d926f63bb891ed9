/** Breakout readiness and reversal risk of app/analysis/patterns.py. */
module Patterns {
  import opened Prelude
  import opened MarketData
  import opened Sorting
  import opened SwingLevels

  datatype Trend = Bullish | Bearish | Sideways
  datatype Momentum = Rising | Falling | Neutral | Overbought | Oversold | Unclear
  datatype Volatility = Calm | Normal | High | Unclear
  datatype Readiness = Low | Medium | High | Unknown
  datatype Bias = Upside | Downside | NoBias

  /** The first level above the price, reading upwards. */
  function NearestAbove(levels: seq<real>, price: real): Option<real> {
    if levels == [] then None
    else if levels[0] > price then Some(levels[0])
    else NearestAbove(levels[1..], price)
  }

  /** The first level below the price, reading the list backwards. */
  function NearestBelow(levels: seq<real>, price: real): Option<real> {
    if levels == [] then None
    else
      var n := |levels| - 1;
      if levels[n] < price then Some(levels[n]) else NearestBelow(levels[..n], price)
  }

  function Nearest(levels: seq<real>, price: real, side: Side): Option<real> {
    match side
    case Support => NearestBelow(levels, price)
    case Resistance => NearestAbove(levels, price)
  }

  /** The relative distance to the nearest level is at most `limit`. */
  predicate Within(nearest: Option<real>, price: real, limit: real)
    requires price > 0.0
  {
    nearest.Some? && Distance(price, nearest.value) / price <= limit
  }

  function BreakoutReadiness(price: real, trend: Trend, momentum: Momentum, volatility: Volatility,
                             support: seq<real>, resistance: seq<real>): (Readiness, Bias)
  {
    if price <= 0.0 then (Unknown, NoBias)
    else
      var above, below := NearestAbove(resistance, price), NearestBelow(support, price);
      var up := trend.Bullish? && (momentum.Rising? || momentum.Overbought?);
      var down := trend.Bearish? && (momentum.Falling? || momentum.Oversold?);
      if up && Within(above, price, 0.003) then (Readiness.High, Upside)
      else if up && Within(above, price, 0.01) then (Medium, Upside)
      else if down && Within(below, price, 0.003) then (Readiness.High, Downside)
      else if down && Within(below, price, 0.01) then (Medium, Downside)
      else if volatility.High? && !trend.Sideways? then (Medium, if trend.Bullish? then Upside else Downside)
      else (Low, NoBias)
  }

  function ReversalRisk(price: real, trend: Trend, momentum: Momentum, support: seq<real>, resistance: seq<real>)
    : Readiness
  {
    if price <= 0.0 then Unknown
    else if trend.Bullish? && momentum.Overbought? && Within(NearestAbove(resistance, price), price, 0.006) then
      Readiness.High
    else if trend.Bearish? && momentum.Oversold? && Within(NearestBelow(support, price), price, 0.006) then
      Readiness.High
    else if momentum.Overbought? || momentum.Oversold? then Medium
    else Low
  }

  // ----- the search finds the nearest level of a sorted list -----

  lemma EndsAreExtreme(levels: seq<real>, x: real)
    requires SortedBy(levels, Ascending()) && x in levels
    ensures levels[0] <= x <= levels[|levels| - 1]
  {
    var k :| 0 <= k < |levels| && levels[k] == x;
    assert k > 0 ==> Ascending()(levels[0], levels[k]);
    assert k < |levels| - 1 ==> Ascending()(levels[k], levels[|levels| - 1]);
  }

  lemma {:induction false} AboveIsNearest(levels: seq<real>, price: real)
    requires SortedBy(levels, Ascending())
    ensures match NearestAbove(levels, price)
      case None => forall x :: x in levels ==> !OnSide(x, price, Resistance)
      case Some(level) => IsNearest(levels, price, Resistance, level)
  {
    if levels != [] {
      if levels[0] > price {
        forall x | x in levels
          ensures levels[0] <= x
        {
          EndsAreExtreme(levels, x);
        }
      } else {
        assert levels == [levels[0]] + levels[1..];
        AboveIsNearest(levels[1..], price);
      }
    }
  }

  lemma {:induction false} BelowIsNearest(levels: seq<real>, price: real)
    requires SortedBy(levels, Ascending())
    ensures match NearestBelow(levels, price)
      case None => forall x :: x in levels ==> !OnSide(x, price, Support)
      case Some(level) => IsNearest(levels, price, Support, level)
  {
    if levels != [] {
      var n := |levels| - 1;
      if levels[n] < price {
        forall x | x in levels
          ensures x <= levels[n]
        {
          EndsAreExtreme(levels, x);
        }
      } else {
        assert levels == levels[..n] + [levels[n]];
        BelowIsNearest(levels[..n], price);
      }
    }
  }

  lemma SearchIsNearest(levels: seq<real>, price: real, side: Side)
    requires SortedBy(levels, Ascending())
    ensures match Nearest(levels, price, side)
      case None => forall x :: x in levels ==> !OnSide(x, price, side)
      case Some(level) => IsNearest(levels, price, side, level)
  {
    match side
    case Support => BelowIsNearest(levels, price);
    case Resistance => AboveIsNearest(levels, price);
  }

  // ----- the reduced list serves as well as all swings -----

  function AllSwings(cs: seq<Candle>, window: nat, side: Side): seq<real> {
    Sort(RawLevels(cs, window, side), Ascending())
  }

  lemma AllSwingsAreSwings(cs: seq<Candle>, window: nat, side: Side)
    ensures SortedBy(AllSwings(cs, window, side), Ascending())
    ensures forall x :: x in AllSwings(cs, window, side) <==> x in RawLevels(cs, window, side)
    ensures forall x :: x in AllSwings(cs, window, side) <==> IsSwing(cs, window, side, x)
  {
    OrdersAreTotal(0.0);
    SortSorts(RawLevels(cs, window, side), Ascending());
    SortHasSame(RawLevels(cs, window, side), Ascending());
    forall x
      ensures x in RawLevels(cs, window, side) <==> IsSwing(cs, window, side, x)
    {
      RawUpToIsSwings(cs, window, side, |cs|, x);
    }
  }

  /** A sorted part of a sorted list that holds its nearest level has the same nearest level. */
  lemma NearestAgrees(part: seq<real>, all: seq<real>, price: real, side: Side)
    requires SortedBy(part, Ascending()) && SortedBy(all, Ascending())
    requires forall x :: x in part ==> x in all
    requires Nearest(all, price, side).Some? ==> Nearest(all, price, side).value in part
    ensures Nearest(part, price, side) == Nearest(all, price, side)
  {
    SearchIsNearest(part, price, side);
    SearchIsNearest(all, price, side);
  }

  lemma NearestSwingIsKept(cs: seq<Candle>, price: real, side: Side, window: nat, cap: int)
    ensures var nearest := Nearest(AllSwings(cs, window, side), price, side);
      nearest.Some? ==> nearest.value in Levels(cs, price, side, window, cap)
  {
    var all := AllSwings(cs, window, side);
    AllSwingsAreSwings(cs, window, side);
    SearchIsNearest(all, price, side);
    if Nearest(all, price, side).Some? {
      NearestIsKept(cs, price, side, window, cap, Nearest(all, price, side).value);
    }
  }

  lemma NearestOnReducedList(cs: seq<Candle>, price: real, side: Side, window: nat, cap: int)
    ensures Nearest(Levels(cs, price, side, window, cap), price, side)
         == Nearest(AllSwings(cs, window, side), price, side)
  {
    AllSwingsAreSwings(cs, window, side);
    LevelsAreGreedyPacking(cs, price, side, window, cap);
    NearestSwingIsKept(cs, price, side, window, cap);
    NearestAgrees(Levels(cs, price, side, window, cap), AllSwings(cs, window, side), price, side);
  }

  /** Both assessments give the same answer on the reduced levels as on all swing points. */
  lemma AssessmentsIgnoreReduction(cs: seq<Candle>, price: real, window: nat, cap: int, trend: Trend,
                                   momentum: Momentum, volatility: Volatility)
    ensures var s, r := Levels(cs, price, Support, window, cap), Levels(cs, price, Resistance, window, cap);
      var s', r' := AllSwings(cs, window, Support), AllSwings(cs, window, Resistance);
      && BreakoutReadiness(price, trend, momentum, volatility, s, r)
         == BreakoutReadiness(price, trend, momentum, volatility, s', r')
      && ReversalRisk(price, trend, momentum, s, r) == ReversalRisk(price, trend, momentum, s', r')
  {
    NearestOnReducedList(cs, price, Support, window, cap);
    NearestOnReducedList(cs, price, Resistance, window, cap);
  }

  // ----- what the assessments say about the candles -----

  ghost predicate SwingWithin(cs: seq<Candle>, price: real, side: Side, window: nat, limit: real) {
    exists x :: IsSwing(cs, window, side, x) && OnSide(x, price, side) && Distance(price, x) <= limit * price
  }

  lemma RatioLimit(d: real, price: real, limit: real)
    requires price > 0.0
    ensures d / price <= limit <==> d <= limit * price
  {
    var q := d / price;
    assert q * price == d;
    if q <= limit {
      assert (limit - q) * price >= 0.0;
    } else {
      assert (q - limit) * price > 0.0;
    }
  }

  lemma WithinMeansSwing(cs: seq<Candle>, price: real, side: Side, window: nat, cap: int, limit: real)
    requires price > 0.0
    ensures Within(Nearest(Levels(cs, price, side, window, cap), price, side), price, limit)
            <==> SwingWithin(cs, price, side, window, limit)
  {
    var all := AllSwings(cs, window, side);
    NearestOnReducedList(cs, price, side, window, cap);
    AllSwingsAreSwings(cs, window, side);
    SearchIsNearest(all, price, side);
    var nearest := Nearest(all, price, side);
    if nearest.Some? {
      RatioLimit(Distance(price, nearest.value), price, limit);
    }
  }

  predicate Rallying(trend: Trend, momentum: Momentum) {
    trend.Bullish? && (momentum.Rising? || momentum.Overbought?)
  }

  predicate Sliding(trend: Trend, momentum: Momentum) {
    trend.Bearish? && (momentum.Falling? || momentum.Oversold?)
  }

  /** Ready to break out upwards: a bullish market within 0.3% below a swing high; half ready within 1% of one, or
      bullish in high volatility. Downwards by symmetry. */
  lemma BreakoutMeansSwings(cs: seq<Candle>, price: real, window: nat, cap: int, trend: Trend,
                            momentum: Momentum, volatility: Volatility)
    requires price > 0.0
    ensures var s, r := Levels(cs, price, Support, window, cap), Levels(cs, price, Resistance, window, cap);
      var readiness := BreakoutReadiness(price, trend, momentum, volatility, s, r);
      var up := (limit: real) => Rallying(trend, momentum) && SwingWithin(cs, price, Resistance, window, limit);
      var down := (limit: real) => Sliding(trend, momentum) && SwingWithin(cs, price, Support, window, limit);
      && (readiness == (Readiness.High, Upside) <==> up(0.003))
      && (readiness == (Readiness.High, Downside) <==> down(0.003))
      && (readiness == (Medium, Upside) <==> trend.Bullish? && !up(0.003) && (up(0.01) || volatility == Volatility.High))
      && (readiness == (Medium, Downside) <==>
          trend.Bearish? && !down(0.003) && (down(0.01) || volatility == Volatility.High))
      && (readiness == (Low, NoBias) <==>
          && !up(0.003) && !up(0.01) && !down(0.003) && !down(0.01)
          && (volatility == Volatility.High ==> trend == Sideways))
  {
    WithinMeansSwing(cs, price, Resistance, window, cap, 0.003);
    WithinMeansSwing(cs, price, Support, window, cap, 0.003);
    WithinMeansSwing(cs, price, Resistance, window, cap, 0.01);
    WithinMeansSwing(cs, price, Support, window, cap, 0.01);
  }

  /** A high reversal risk is an exhausted trend within 0.6% of a swing; any other exhaustion is a medium one. */
  lemma ReversalMeansSwings(cs: seq<Candle>, price: real, window: nat, cap: int, trend: Trend, momentum: Momentum)
    requires price > 0.0
    ensures var s, r := Levels(cs, price, Support, window, cap), Levels(cs, price, Resistance, window, cap);
      var risk := ReversalRisk(price, trend, momentum, s, r);
      var near := || (trend.Bullish? && momentum.Overbought? && SwingWithin(cs, price, Resistance, window, 0.006))
                  || (trend.Bearish? && momentum.Oversold? && SwingWithin(cs, price, Support, window, 0.006));
      && (risk == Readiness.High <==> near)
      && (risk == Medium <==> !near && (momentum == Overbought || momentum == Oversold))
      && (risk == Low <==> momentum != Overbought && momentum != Oversold)
  {
    WithinMeansSwing(cs, price, Resistance, window, cap, 0.006);
    WithinMeansSwing(cs, price, Support, window, cap, 0.006);
  }

  /** Without a price both answers are unknown, and only then. */
  lemma UnknownWithoutPrice(price: real, trend: Trend, momentum: Momentum, volatility: Volatility,
                            support: seq<real>, resistance: seq<real>)
    ensures BreakoutReadiness(price, trend, momentum, volatility, support, resistance).0 == Unknown <==> price <= 0.0
    ensures ReversalRisk(price, trend, momentum, support, resistance) == Unknown <==> price <= 0.0
    ensures price <= 0.0 ==> BreakoutReadiness(price, trend, momentum, volatility, support, resistance).1 == NoBias
  {
  }
}
