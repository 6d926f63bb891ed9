/** SMA, EMA, RSI and ATR of app/features/indicators.py, over exact numbers. */
module Indicators {
  import opened Prelude
  import opened MarketData
  import opened Folds

  /** A `ValueError`, the `None` of a series that is too short, or a value. */
  datatype Reading = Invalid | TooShort | Value(value: real)

  function Sma(xs: seq<real>): Reading {
    if xs == [] then Invalid else Value(Mean(xs))
  }

  /** The simple average is an error exactly for no values, and lies within any bounds of its values. */
  lemma SmaWithinBounds(xs: seq<real>, lo: real, hi: real)
    requires forall i :: 0 <= i < |xs| ==> lo <= xs[i] <= hi
    ensures Sma(xs).Invalid? <==> xs == []
    ensures xs != [] ==> Sma(xs).Value? && lo <= Sma(xs).value <= hi
  {
    if xs != [] {
      MeanBounds(xs, lo, hi);
    }
  }

  // ----- EMA -----

  function Multiplier(period: nat): real {
    2.0 / (period + 1) as real
  }

  function Times(a: real): real -> real {
    x => a * x
  }

  function Product(): (real, real) -> real {
    (x, y) => x * y
  }

  function EmaStep(period: nat): (real, real) -> real {
    (current, x) => (x - current) * Multiplier(period) + current
  }

  function Ema(xs: seq<real>, period: nat): real
    requires 1 <= period <= |xs|
  {
    Smooth(EmaStep(period), xs, period)
  }

  method EmaOf(xs: seq<real>, period: int) returns (r: Reading)
    ensures r == if period <= 0 then Invalid else if |xs| < period then TooShort else Value(Ema(xs, period))
  {
    if period <= 0 {
      return Invalid;
    }
    if |xs| < period {
      return TooShort;
    }
    var multiplier := Multiplier(period);
    var rest := xs[period..];
    var current := Mean(xs[..period]);
    var i := 0;
    while i < |rest|
      invariant 0 <= i <= |rest|
      invariant current == Fold(EmaStep(period), Mean(xs[..period]), rest[..i])
    {
      assert rest[..i + 1][..i] == rest[..i];
      current := (rest[i] - current) * multiplier + current;
      i := i + 1;
    }
    assert rest[..i] == rest;
    r := Value(current);
  }

  function Power(base: real, n: nat): real {
    if n == 0 then 1.0 else base * Power(base, n - 1)
  }

  /** Closed form: the weight of value `i` among `n`. */
  function Weight(i: nat, n: nat, period: nat): real
    requires 1 <= period <= n && i < n
  {
    var m := Multiplier(period);
    if i < period then Power(1.0 - m, n - period) / period as real else m * Power(1.0 - m, n - 1 - i)
  }

  function WeightAt(n: nat, period: nat): nat -> real
    requires 1 <= period <= n
  {
    (i: nat) => if i < n then Weight(i, n, period) else 0.0
  }

  function Weights(n: nat, period: nat): (ws: seq<real>)
    requires 1 <= period <= n
    ensures |ws| == n
  {
    Table(WeightAt(n, period), n)
  }

  lemma MultiplierRange(period: nat)
    requires period >= 1
    ensures 0.0 < Multiplier(period) <= 1.0
  {
    var d := (period + 1) as real;
    assert Multiplier(period) * d == 2.0;
    LessTimes(1.0, Multiplier(period), d);
    LessTimes(0.0, Multiplier(period), d);
  }

  lemma ScaledQuotient(c: real, x: real, n: real)
    requires n > 0.0
    ensures c * x / n == c * (x / n)
  {
    var q := x / n;
    assert q * n == x;
    assert c * q * n == c * (q * n);
    Divides(c * x, n, c * q);
  }

  /** With one more value each old weight shrinks by `1 - m`. */
  lemma WeightShrinks(i: nat, n: nat, period: nat)
    requires 1 <= period < n && i < n - 1
    ensures Weight(i, n, period) == (1.0 - Multiplier(period)) * Weight(i, n - 1, period)
  {
    var m := Multiplier(period);
    var c := 1.0 - m;
    if i < period {
      var rest := Power(c, n - 1 - period);
      assert Power(c, n - period) == c * rest;
      ScaledQuotient(c, rest, period as real);
    } else {
      var rest := Power(c, n - 2 - i);
      assert Power(c, n - 1 - i) == c * rest;
      Reassociate(m, c, rest);
    }
  }

  lemma Reassociate(x: real, y: real, z: real)
    ensures x * (y * z) == y * (x * z)
  {
  }

  /** ... and the new value weighs `m`. */
  lemma WeightsSnoc(n: nat, period: nat)
    requires 1 <= period < n
    ensures Weights(n, period)
         == Map(Times(1.0 - Multiplier(period)), Weights(n - 1, period)) + [Multiplier(period)]
  {
    var shrink := Times(1.0 - Multiplier(period));
    var now, before := WeightAt(n, period), WeightAt(n - 1, period);
    forall i: nat | i < n - 1
      ensures now(i) == shrink(before(i))
    {
      WeightShrinks(i, n, period);
    }
    TableIsImage(now, before, shrink, n - 1);
    assert Power(1.0 - Multiplier(period), 0) == 1.0;
    assert now(n - 1) == Multiplier(period);
  }

  lemma {:induction false} PowerNonNegative(c: real, n: nat)
    requires c >= 0.0
    ensures Power(c, n) >= 0.0
  {
    if n > 0 {
      PowerNonNegative(c, n - 1);
    }
  }

  lemma WeightsNonNegative(n: nat, period: nat)
    requires 1 <= period <= n
    ensures forall i :: 0 <= i < n ==> Weights(n, period)[i] >= 0.0
  {
    forall i | 0 <= i < n
      ensures Weights(n, period)[i] >= 0.0
    {
      TableAt(WeightAt(n, period), n, i);
      WeightNonNegative(i, n, period);
    }
  }

  lemma WeightNonNegative(i: nat, n: nat, period: nat)
    requires 1 <= period <= n && i < n
    ensures Weight(i, n, period) >= 0.0
  {
    MultiplierRange(period);
    var c := 1.0 - Multiplier(period);
    if i < period {
      var top := Power(c, n - period);
      PowerNonNegative(c, n - period);
      LessTimes(top / period as real, 0.0, period as real);
    } else {
      PowerNonNegative(c, n - 1 - i);
    }
  }

  lemma FlatWeight(i: nat, n: nat)
    requires i < n
    ensures Weights(n, n)[i] == 1.0 / n as real
  {
    TableAt(WeightAt(n, n), n, i);
    assert Power(1.0 - Multiplier(n), 0) == 1.0;
  }

  /** The mean weighs every value alike. */
  lemma MeanIsWeightedSum(xs: seq<real>)
    requires xs != []
    ensures Mean(xs) == Dot(Product(), Weights(|xs|, |xs|), xs) && Sum(Weights(|xs|, |xs|)) == 1.0
  {
    var n := |xs|;
    var ws := Weights(n, n);
    forall i | 0 <= i < n
      ensures ws[i] == 1.0 / n as real
    {
      FlatWeight(i, n);
    }
    MeanOfFlat(ws, xs);
  }

  lemma MeanOfFlat(ws: seq<real>, xs: seq<real>)
    requires xs != [] && |ws| == |xs| && forall i :: 0 <= i < |ws| ==> ws[i] == 1.0 / |xs| as real
    ensures Mean(xs) == Dot(Product(), ws, xs) && Sum(ws) == 1.0
  {
    var n := |xs|;
    ProductAdds(1.0 / n as real);
    ConstantWeights(Product(), ws, xs, 1.0 / n as real);
    SumOfConstant(ws, 1.0 / n as real);
    UnitFraction(Sum(xs), n);
  }

  lemma ProductAdds(w: real)
    ensures Product()(w, 0.0) == 0.0 && forall x, y :: OpAdds(Product(), w, x, y)
  {
    forall x, y
      ensures OpAdds(Product(), w, x, y)
    {
    }
  }

  lemma {:induction false} SumOfConstant(ws: seq<real>, w: real)
    requires forall i :: 0 <= i < |ws| ==> ws[i] == w
    ensures Sum(ws) == Product()(w, |ws| as real)
  {
    if ws != [] {
      SumOfConstant(ws[..|ws| - 1], w);
    }
  }

  lemma UnitFraction(x: real, n: nat)
    requires n >= 1
    ensures Product()(1.0 / n as real, x) == x / n as real
    ensures Product()(1.0 / n as real, n as real) == 1.0
  {
    var w := 1.0 / n as real;
    assert w * n as real == 1.0;
    assert w * x * n as real == (w * n as real) * x;
    Divides(x, n as real, w * x);
  }

  lemma EmaSnoc(xs: seq<real>, period: nat)
    requires 1 <= period < |xs|
    ensures var before, m := Ema(xs[..|xs| - 1], period), Multiplier(period);
      Ema(xs, period) == Times(1.0 - m)(before) + Product()(m, xs[|xs| - 1])
  {
    SmoothSnoc(EmaStep(period), xs, period);
    Blend(Ema(xs[..|xs| - 1], period), xs[|xs| - 1], period);
  }

  lemma Blend(before: real, x: real, period: nat)
    ensures EmaStep(period)(before, x)
         == Times(1.0 - Multiplier(period))(before) + Product()(Multiplier(period), x)
  {
  }

  lemma ProductScales(a: real)
    ensures forall w, x :: OpScales(Product(), Times(a), w, x)
  {
    forall w, x
      ensures OpScales(Product(), Times(a), w, x)
    {
      assert a * w * x == a * (w * x);
    }
  }

  lemma DotOfSnoc(n: nat, xs: seq<real>, period: nat)
    requires 1 <= period < n == |xs|
    ensures var before, m := Weights(n - 1, period), Multiplier(period);
      && Dot(Product(), Weights(n, period), xs)
         == Times(1.0 - m)(Dot(Product(), before, xs[..n - 1])) + Product()(m, xs[n - 1])
      && Sum(Weights(n, period)) == Times(1.0 - m)(Sum(before)) + m
  {
    var m := Multiplier(period);
    WeightsSnoc(n, period);
    TimesIsAdditive(1.0 - m);
    ProductScales(1.0 - m);
    DotScaledSnoc(Product(), Times(1.0 - m), Weights(n - 1, period), m, xs);
  }

  /** The loop equals the closed-form weighted sum, and the weights total one. */
  lemma {:induction false} EmaIsWeightedSum(xs: seq<real>, period: nat)
    requires 1 <= period <= |xs|
    ensures Ema(xs, period) == Dot(Product(), Weights(|xs|, period), xs)
    ensures Sum(Weights(|xs|, period)) == 1.0
  {
    if |xs| == period {
      SmoothSnoc(EmaStep(period), xs, period);
      MeanIsWeightedSum(xs);
    } else {
      EmaIsWeightedSum(xs[..|xs| - 1], period);
      EmaSnoc(xs, period);
      DotOfSnoc(|xs|, xs, period);
    }
  }

  /** The EMA lies within the bounds of its values. */
  lemma EmaWithinBounds(xs: seq<real>, period: nat, lo: real, hi: real)
    requires 1 <= period <= |xs| && forall i :: 0 <= i < |xs| ==> lo <= xs[i] <= hi
    ensures lo <= Ema(xs, period) <= hi
  {
    var step := EmaStep(period);
    forall b, x | lo <= b <= hi && lo <= x <= hi
      ensures lo <= step(b, x) <= hi
    {
      BlendBounds(b, x, period, lo, hi);
    }
    SmoothBounds(step, xs, period, lo, hi);
  }

  lemma BlendBounds(b: real, x: real, period: nat, lo: real, hi: real)
    requires period >= 1 && lo <= b <= hi && lo <= x <= hi
    ensures lo <= (x - b) * Multiplier(period) + b <= hi
  {
    var m := Multiplier(period);
    MultiplierRange(period);
    assert (x - b) * m + b == (1.0 - m) * b + m * x;
    ProductNonNegative(1.0 - m, b - lo);
    ProductNonNegative(1.0 - m, hi - b);
    ProductNonNegative(m, x - lo);
    ProductNonNegative(m, hi - x);
  }

  lemma ProductNonNegative(x: real, y: real)
    requires x >= 0.0 && y >= 0.0
    ensures x * y >= 0.0
  {
  }

  lemma ProductMonotone(w: real, x: real, y: real)
    requires w >= 0.0 && x <= y
    ensures Product()(w, x) <= Product()(w, y)
  {
    ProductNonNegative(w, y - x);
  }

  /** The EMA is monotone in every input. */
  lemma EmaMonotone(xs: seq<real>, ys: seq<real>, period: nat)
    requires 1 <= period <= |xs| == |ys| && forall i :: 0 <= i < |xs| ==> xs[i] <= ys[i]
    ensures Ema(xs, period) <= Ema(ys, period)
  {
    EmaIsWeightedSum(xs, period);
    EmaIsWeightedSum(ys, period);
    WeightsNonNegative(|xs|, period);
    var ws := Weights(|xs|, period);
    forall i | 0 <= i < |xs|
      ensures Product()(ws[i], xs[i]) <= Product()(ws[i], ys[i])
    {
      ProductMonotone(ws[i], xs[i], ys[i]);
    }
    DotMonotone(Product(), ws, xs, ys);
  }

  /** The newest value weighs two parts in `period + 1`: raising it moves the EMA by just that share. */
  lemma EmaNewest(xs: seq<real>, period: nat, d: real)
    requires 1 <= period < |xs|
    ensures var n := |xs| - 1;
      Ema(xs[..n] + [xs[n] + d], period) - Ema(xs, period) == 2.0 / (period + 1) as real * d
  {
    var n := |xs| - 1;
    var ys := xs[..n] + [xs[n] + d];
    assert ys[..n] == xs[..n];
    EmaSnoc(xs, period);
    EmaSnoc(ys, period);
    BlendDiffers(Multiplier(period), Ema(xs[..n], period), xs[n], d, Ema(xs, period), Ema(ys, period));
  }

  lemma BlendDiffers(m: real, before: real, x: real, d: real, a: real, b: real)
    requires a == Times(1.0 - m)(before) + Product()(m, x) && b == Times(1.0 - m)(before) + Product()(m, x + d)
    ensures b - a == m * d
  {
  }

  // ----- Wilder smoothing -----

  function WilderStep(period: nat): (real, real) -> real
    requires period >= 1
  {
    (current, x) => (current * (period - 1) as real + x) / period as real
  }

  function Wilder(xs: seq<real>, period: nat): real
    requires 1 <= period <= |xs|
  {
    Smooth(WilderStep(period), xs, period)
  }

  method WilderLoop(xs: seq<real>, period: nat) returns (current: real)
    requires 1 <= period <= |xs|
    ensures current == Wilder(xs, period)
  {
    var rest := xs[period..];
    current := Mean(xs[..period]);
    var i := 0;
    while i < |rest|
      invariant 0 <= i <= |rest|
      invariant current == Fold(WilderStep(period), Mean(xs[..period]), rest[..i])
    {
      assert rest[..i + 1][..i] == rest[..i];
      current := (current * (period - 1) as real + rest[i]) / period as real;
      i := i + 1;
    }
    assert rest[..i] == rest;
  }

  lemma WilderStepBounds(b: real, x: real, period: nat, lo: real, hi: real)
    requires period >= 1 && lo <= b <= hi && lo <= x <= hi
    ensures lo <= (b * (period - 1) as real + x) / period as real <= hi
  {
    var k := (period - 1) as real;
    ProductNonNegative(b - lo, k);
    ProductNonNegative(hi - b, k);
    assert lo * period as real == lo * k + lo && hi * period as real == hi * k + hi;
    DivisionBounds(b * k + x, period as real, lo, hi);
  }

  lemma WilderBounds(xs: seq<real>, period: nat, lo: real, hi: real)
    requires 1 <= period <= |xs| && forall i :: 0 <= i < |xs| ==> lo <= xs[i] <= hi
    ensures lo <= Wilder(xs, period) <= hi
  {
    var step := WilderStep(period);
    forall b, x | lo <= b <= hi && lo <= x <= hi
      ensures lo <= step(b, x) <= hi
    {
      WilderStepBounds(b, x, period, lo, hi);
    }
    SmoothBounds(step, xs, period, lo, hi);
  }

  lemma WilderStepScales(a: real, b: real, x: real, period: nat)
    requires period >= 1
    ensures (a * b * (period - 1) as real + a * x) / period as real
         == a * ((b * (period - 1) as real + x) / period as real)
  {
    var k := (period - 1) as real;
    assert a * b * k + a * x == a * (b * k + x);
    ScaledQuotient(a, b * k + x, period as real);
  }

  lemma TimesIsAdditive(a: real)
    ensures Additive(Times(a))
  {
    forall x, y
      ensures Adds(Times(a), x, y)
    {
    }
  }

  lemma TimesDivides(a: real, n: nat)
    requires n >= 1
    ensures forall x :: DivSwaps(Times(a), x, n)
  {
    forall x
      ensures DivSwaps(Times(a), x, n)
    {
      ScaledQuotient(a, x, n as real);
    }
  }

  lemma WilderStepSwaps(a: real, period: nat)
    requires period >= 1
    ensures forall b, x :: StepSwaps(WilderStep(period), Times(a), b, x)
  {
    forall b, x
      ensures StepSwaps(WilderStep(period), Times(a), b, x)
    {
      WilderStepScales(a, b, x, period);
    }
  }

  lemma WilderScales(a: real, xs: seq<real>, period: nat)
    requires 1 <= period <= |xs|
    ensures Wilder(Map(Times(a), xs), period) == Times(a)(Wilder(xs, period))
  {
    TimesIsAdditive(a);
    TimesDivides(a, period);
    WilderStepSwaps(a, period);
    SmoothCommutes(WilderStep(period), Times(a), xs, period);
  }

  /** One part in `period` of the way from one value to another. */
  function Toward(from: real, to: real, period: nat): real
    requires period >= 1
  {
    from + (to - from) / period as real
  }

  lemma WilderStepIsToward(before: real, x: real, period: nat)
    requires period >= 1
    ensures WilderStep(period)(before, x) == Toward(before, x, period)
  {
    var p := period as real;
    var q := (x - before) / p;
    assert q * p == x - before;
    Divides(before * (p - 1.0) + x, p, before + q);
  }

  /** Wilder's smoothing moves by one part in `period` towards the newest value. */
  lemma WilderExtends(front: seq<real>, x: real, period: nat)
    requires 1 <= period <= |front|
    ensures Wilder(front + [x], period) == Toward(Wilder(front, period), x, period)
  {
    assert (front + [x])[..|front|] == front;
    SmoothSnoc(WilderStep(period), front + [x], period);
    WilderStepIsToward(Wilder(front, period), x, period);
  }

  // ----- RSI -----

  function Changes(xs: seq<real>): (ys: seq<real>)
    ensures |ys| == if xs == [] then 0 else |xs| - 1
  {
    if |xs| <= 1 then [] else Changes(xs[..|xs| - 1]) + [xs[|xs| - 1] - xs[|xs| - 2]]
  }

  function GainOf(): real -> real {
    change => Max(change, 0.0)
  }

  function LossOf(): real -> real {
    change => Max(-change, 0.0)
  }

  function AverageGain(xs: seq<real>, period: nat): real
    requires 1 <= period < |xs|
  {
    Wilder(Map(GainOf(), Changes(xs)), period)
  }

  function AverageLoss(xs: seq<real>, period: nat): real
    requires 1 <= period < |xs|
  {
    Wilder(Map(LossOf(), Changes(xs)), period)
  }

  function Strength(gain: real, loss: real): real
    requires gain >= 0.0 && loss >= 0.0
  {
    if loss == 0.0 then if gain == 0.0 then 50.0 else 100.0
    else 100.0 - 100.0 / (1.0 + gain / loss)
  }

  ghost predicate AllAtLeastZero(xs: seq<real>) {
    forall i :: 0 <= i < |xs| ==> xs[i] >= 0.0
  }

  ghost predicate AllZero(xs: seq<real>) {
    forall i :: 0 <= i < |xs| ==> xs[i] == 0.0
  }

  lemma MovesAtLeastZero(changes: seq<real>)
    ensures AllAtLeastZero(Map(GainOf(), changes)) && AllAtLeastZero(Map(LossOf(), changes))
  {
    forall i | 0 <= i < |changes|
      ensures Map(GainOf(), changes)[i] >= 0.0 && Map(LossOf(), changes)[i] >= 0.0
    {
      MapAt(GainOf(), changes, i);
      MapAt(LossOf(), changes, i);
    }
  }

  lemma {:induction false} SumNonNegative(xs: seq<real>)
    requires AllAtLeastZero(xs)
    ensures Sum(xs) >= 0.0 && (Sum(xs) == 0.0 <==> AllZero(xs))
  {
    if xs != [] {
      SumNonNegative(xs[..|xs| - 1]);
    }
  }

  lemma {:induction false} WilderNonNegative(xs: seq<real>, period: nat)
    requires 1 <= period <= |xs| && AllAtLeastZero(xs)
    ensures Wilder(xs, period) >= 0.0
    ensures period >= 2 ==> (Wilder(xs, period) == 0.0 <==> AllZero(xs))
  {
    SmoothSnoc(WilderStep(period), xs, period);
    if |xs| == period {
      SumNonNegative(xs);
      ZeroMean(Sum(xs), period);
    } else {
      var n := |xs| - 1;
      WilderNonNegative(xs[..n], period);
      ZeroStep(Wilder(xs[..n], period), xs[n], period);
      assert AllZero(xs) <==> AllZero(xs[..n]) && xs[n] == 0.0;
    }
  }

  lemma ZeroMean(sum: real, n: nat)
    requires sum >= 0.0 && n >= 1
    ensures sum / n as real >= 0.0 && (sum / n as real == 0.0 <==> sum == 0.0)
  {
    var q := sum / n as real;
    assert q * n as real == sum;
    LessTimes(q, 0.0, n as real);
  }

  lemma ZeroStep(before: real, x: real, period: nat)
    requires before >= 0.0 && x >= 0.0 && period >= 1
    ensures (before * (period - 1) as real + x) / period as real >= 0.0
    ensures period >= 2 ==>
      ((before * (period - 1) as real + x) / period as real == 0.0 <==> before == 0.0 && x == 0.0)
  {
    var k := (period - 1) as real;
    ZeroMean(before * k + x, period);
    if period >= 2 {
      LessTimes(0.0, before, k);
    }
  }

  lemma AveragesNonNegative(xs: seq<real>, period: nat)
    requires 1 <= period < |xs|
    ensures AverageGain(xs, period) >= 0.0 && AverageLoss(xs, period) >= 0.0
  {
    MovesAtLeastZero(Changes(xs));
    WilderNonNegative(Map(GainOf(), Changes(xs)), period);
    WilderNonNegative(Map(LossOf(), Changes(xs)), period);
  }

  function Rsi(xs: seq<real>, period: nat): real
    requires 1 <= period < |xs|
  {
    AveragesNonNegative(xs, period);
    Strength(AverageGain(xs, period), AverageLoss(xs, period))
  }

  method RsiOf(xs: seq<real>, period: int) returns (r: Reading)
    ensures r == if period <= 0 then Invalid else if |xs| < period + 1 then TooShort else Value(Rsi(xs, period))
  {
    if period <= 0 {
      return Invalid;
    }
    if |xs| < period + 1 {
      return TooShort;
    }
    var changes := Changes(xs);
    var gain, loss := AverageLoop(Map(GainOf(), changes), Map(LossOf(), changes), period);
    AveragesNonNegative(xs, period);
    r := Value(Strength(gain, loss));
  }

  /** Both averages, smoothed side by side. */
  method AverageLoop(gains: seq<real>, losses: seq<real>, period: nat) returns (gain: real, loss: real)
    requires 1 <= period <= |gains| == |losses|
    ensures gain == Wilder(gains, period) && loss == Wilder(losses, period)
  {
    var step := WilderStep(period);
    var moreGains, moreLosses := gains[period..], losses[period..];
    gain := Mean(gains[..period]);
    loss := Mean(losses[..period]);
    var i := 0;
    while i < |moreGains|
      invariant 0 <= i <= |moreGains|
      invariant gain == Fold(step, Mean(gains[..period]), moreGains[..i])
      invariant loss == Fold(step, Mean(losses[..period]), moreLosses[..i])
    {
      assert moreGains[..i + 1][..i] == moreGains[..i] && moreLosses[..i + 1][..i] == moreLosses[..i];
      gain := step(gain, moreGains[i]);
      loss := step(loss, moreLosses[i]);
      i := i + 1;
    }
    assert moreGains[..i] == moreGains && moreLosses[..i] == moreLosses;
  }

  /** Closed form: the gains' share of all movement, and 50 without movement. */
  lemma StrengthIsShare(gain: real, loss: real)
    requires gain >= 0.0 && loss >= 0.0
    ensures gain + loss == 0.0 ==> Strength(gain, loss) == 50.0
    ensures gain + loss > 0.0 ==> Strength(gain, loss) == 100.0 * gain / (gain + loss)
  {
    if loss > 0.0 {
      var rs := gain / loss;
      assert rs * loss == gain;
      LessTimes(rs, 0.0, loss);
      var total := gain + loss;
      assert (1.0 + rs) * loss == total;
      var part := 100.0 / (1.0 + rs);
      assert part * (1.0 + rs) == 100.0;
      assert part * total == 100.0 * loss by {
        assert part * ((1.0 + rs) * loss) == (part * (1.0 + rs)) * loss;
      }
      Divides(100.0 * gain, total, 100.0 - part);
    } else if gain > 0.0 {
      Divides(100.0 * gain, gain, 100.0);
    }
  }

  lemma StrengthLaws(gain: real, loss: real, a: real)
    requires gain >= 0.0 && loss >= 0.0 && a > 0.0
    ensures 0.0 <= Strength(gain, loss) <= 100.0
    ensures Strength(loss, gain) == 100.0 - Strength(gain, loss)
    ensures Times(a)(gain) >= 0.0 && Times(a)(loss) >= 0.0
    ensures Strength(Times(a)(gain), Times(a)(loss)) == Strength(gain, loss)
  {
    StrengthIsShare(gain, loss);
    StrengthIsShare(loss, gain);
    assert a * gain >= 0.0 && a * loss >= 0.0;
    StrengthIsShare(a * gain, a * loss);
    var total := gain + loss;
    if total > 0.0 {
      var share := 100.0 * gain / total;
      assert share * total == 100.0 * gain;
      DivisionBounds(100.0 * gain, total, 0.0, 100.0);
      Divides(100.0 * loss, total, 100.0 - share);
      assert a * total > 0.0;
      assert share * (a * total) == 100.0 * (a * gain) by {
        assert share * (a * total) == a * (share * total);
      }
      Divides(100.0 * (a * gain), a * gain + a * loss, share);
    }
  }

  function Line(a: real, b: real): real -> real {
    x => a * x + b
  }

  ghost predicate Differs(f: real -> real, g: real -> real, x: real, y: real) {
    f(x) - f(y) == g(x - y)
  }

  lemma ImageOfOne(g: real -> real, x: real)
    ensures Map(g, [x]) == [g(x)]
  {
    MapAt(g, [x], 0);
  }

  lemma {:induction false} ChangesOfImage(f: real -> real, g: real -> real, xs: seq<real>)
    requires forall x, y :: Differs(f, g, x, y)
    ensures Changes(Map(f, xs)) == Map(g, Changes(xs))
  {
    if |xs| > 1 {
      var n := |xs| - 1;
      ChangesOfImage(f, g, xs[..n]);
      assert Differs(f, g, xs[n], xs[n - 1]);
      MapSplit(f, xs, n);
      MapAt(f, xs, n);
      MapAt(f, xs, n - 1);
      MapConcat(g, Changes(xs[..n]), [xs[n] - xs[n - 1]]);
      ImageOfOne(g, xs[n] - xs[n - 1]);
    }
  }

  lemma ChangesOfLine(xs: seq<real>, a: real, b: real)
    ensures Changes(Map(Line(a, b), xs)) == Map(Times(a), Changes(xs))
  {
    forall x, y
      ensures Differs(Line(a, b), Times(a), x, y)
    {
    }
    ChangesOfImage(Line(a, b), Times(a), xs);
  }

  function Same(): real -> real {
    x => x
  }

  lemma {:induction false} MapSame(xs: seq<real>)
    ensures Map(Same(), xs) == xs
  {
    if xs != [] {
      MapSame(xs[..|xs| - 1]);
    }
  }

  lemma MirroredMoves(changes: seq<real>)
    ensures Map(GainOf(), Map(Times(-1.0), changes)) == Map(LossOf(), changes)
    ensures Map(LossOf(), Map(Times(-1.0), changes)) == Map(GainOf(), changes)
  {
    forall x
      ensures Swaps(GainOf(), Times(-1.0), LossOf(), Same(), x) && Swaps(LossOf(), Times(-1.0), GainOf(), Same(), x)
    {
    }
    MapsCommute(GainOf(), Times(-1.0), LossOf(), Same(), changes);
    MapsCommute(LossOf(), Times(-1.0), GainOf(), Same(), changes);
    MapSame(Map(LossOf(), changes));
    MapSame(Map(GainOf(), changes));
  }

  lemma MirroredAverages(xs: seq<real>, period: nat)
    requires 1 <= period < |xs|
    ensures AverageGain(Map(Line(-1.0, 0.0), xs), period) == AverageLoss(xs, period)
    ensures AverageLoss(Map(Line(-1.0, 0.0), xs), period) == AverageGain(xs, period)
  {
    ChangesOfLine(xs, -1.0, 0.0);
    MirroredMoves(Changes(xs));
  }

  lemma ScaledGain(a: real, x: real)
    requires a > 0.0
    ensures Swaps(GainOf(), Times(a), GainOf(), Times(a), x) && Swaps(LossOf(), Times(a), LossOf(), Times(a), x)
  {
    LessTimes(x, 0.0, a);
    LessTimes(0.0, x, a);
    assert -(a * x) == a * -x;
  }

  lemma ScaledMoves(changes: seq<real>, a: real)
    requires a > 0.0
    ensures Map(GainOf(), Map(Times(a), changes)) == Map(Times(a), Map(GainOf(), changes))
    ensures Map(LossOf(), Map(Times(a), changes)) == Map(Times(a), Map(LossOf(), changes))
  {
    forall x
      ensures Swaps(GainOf(), Times(a), GainOf(), Times(a), x) && Swaps(LossOf(), Times(a), LossOf(), Times(a), x)
    {
      ScaledGain(a, x);
    }
    MapsCommute(GainOf(), Times(a), GainOf(), Times(a), changes);
    MapsCommute(LossOf(), Times(a), LossOf(), Times(a), changes);
  }

  lemma ScaledAverages(xs: seq<real>, period: nat, a: real, b: real)
    requires 1 <= period < |xs| && a > 0.0
    ensures AverageGain(Map(Line(a, b), xs), period) == Times(a)(AverageGain(xs, period))
    ensures AverageLoss(Map(Line(a, b), xs), period) == Times(a)(AverageLoss(xs, period))
  {
    ChangesOfLine(xs, a, b);
    ScaledMoves(Changes(xs), a);
    WilderScales(a, Map(GainOf(), Changes(xs)), period);
    WilderScales(a, Map(LossOf(), Changes(xs)), period);
  }

  /** The RSI is a percentage. */
  lemma RsiIsPercentage(xs: seq<real>, period: nat)
    requires 1 <= period < |xs|
    ensures 0.0 <= Rsi(xs, period) <= 100.0
  {
    AveragesNonNegative(xs, period);
    StrengthLaws(AverageGain(xs, period), AverageLoss(xs, period), 1.0);
  }

  /** Turning the series upside down mirrors the RSI. */
  lemma RsiMirrors(xs: seq<real>, period: nat)
    requires 1 <= period < |xs|
    ensures Rsi(Map(Line(-1.0, 0.0), xs), period) == 100.0 - Rsi(xs, period)
  {
    AveragesNonNegative(xs, period);
    StrengthLaws(AverageGain(xs, period), AverageLoss(xs, period), 1.0);
    MirroredAverages(xs, period);
  }

  /** Neither the unit nor the origin of the series matters. */
  lemma RsiIsAffineInvariant(xs: seq<real>, period: nat, a: real, b: real)
    requires 1 <= period < |xs| && a > 0.0
    ensures Rsi(Map(Line(a, b), xs), period) == Rsi(xs, period)
  {
    AveragesNonNegative(xs, period);
    StrengthLaws(AverageGain(xs, period), AverageLoss(xs, period), a);
    ScaledAverages(xs, period, a, b);
  }

  lemma {:induction false} ChangeAt(xs: seq<real>, i: nat)
    requires i + 1 < |xs|
    ensures Changes(xs)[i] == xs[i + 1] - xs[i]
  {
    if i + 2 < |xs| {
      ChangeAt(xs[..|xs| - 1], i);
    }
  }

  ghost predicate NeverFalls(xs: seq<real>) {
    forall i :: 0 <= i < |xs| - 1 ==> xs[i] <= xs[i + 1]
  }

  ghost predicate NeverRises(xs: seq<real>) {
    forall i :: 0 <= i < |xs| - 1 ==> xs[i] >= xs[i + 1]
  }

  lemma NoLossMeansNoFall(xs: seq<real>)
    ensures AllZero(Map(LossOf(), Changes(xs))) <==> NeverFalls(xs)
  {
    var losses := Map(LossOf(), Changes(xs));
    forall i | 0 <= i < |xs| - 1
      ensures losses[i] == 0.0 <==> xs[i] <= xs[i + 1]
    {
      ChangeAt(xs, i);
      MapAt(LossOf(), Changes(xs), i);
    }
    assert |losses| == if xs == [] then 0 else |xs| - 1;
    if AllZero(losses) {
      assert NeverFalls(xs);
    }
  }

  lemma NoGainMeansNoRise(xs: seq<real>)
    ensures AllZero(Map(GainOf(), Changes(xs))) <==> NeverRises(xs)
  {
    var gains := Map(GainOf(), Changes(xs));
    forall i | 0 <= i < |xs| - 1
      ensures gains[i] == 0.0 <==> xs[i] >= xs[i + 1]
    {
      ChangeAt(xs, i);
      MapAt(GainOf(), Changes(xs), i);
    }
    assert |gains| == if xs == [] then 0 else |xs| - 1;
    if AllZero(gains) {
      assert NeverRises(xs);
    }
  }

  /** With a period of two or more the smoothing never forgets: the RSI is 100 exactly when the series
      rises somewhere and never falls. */
  lemma RsiExtremes(xs: seq<real>, period: nat)
    requires 2 <= period < |xs|
    ensures Rsi(xs, period) == 100.0 <==> NeverFalls(xs) && !NeverRises(xs)
  {
    AveragesNonNegative(xs, period);
    MovesAtLeastZero(Changes(xs));
    WilderNonNegative(Map(GainOf(), Changes(xs)), period);
    WilderNonNegative(Map(LossOf(), Changes(xs)), period);
    NoLossMeansNoFall(xs);
    NoGainMeansNoRise(xs);
    FullShare(AverageGain(xs, period), AverageLoss(xs, period));
  }

  lemma FullShare(gain: real, loss: real)
    requires gain >= 0.0 && loss >= 0.0
    ensures Strength(gain, loss) == 100.0 <==> gain > 0.0 && loss == 0.0
  {
    if loss > 0.0 {
      var rs := gain / loss;
      assert rs * loss == gain;
      LessTimes(rs, 0.0, loss);
      assert 100.0 / (1.0 + rs) > 0.0;
    }
  }

  // ----- ATR -----

  function TrueRange(c: Candle, previousClose: Option<real>): real {
    match previousClose
    case None => c.high - c.low
    case Some(close) => Max(Max(c.high - c.low, Abs(c.high - close)), Abs(c.low - close))
  }

  /** The true range of candle `i`, against the close before it. */
  function RangeAt(cs: seq<Candle>, i: nat): real
    requires i < |cs|
  {
    TrueRange(cs[i], if i == 0 then None else Some(cs[i - 1].close))
  }

  function TrueRanges(cs: seq<Candle>): (ranges: seq<real>)
    ensures |ranges| == |cs|
  {
    if cs == [] then [] else TrueRanges(cs[..|cs| - 1]) + [RangeAt(cs, |cs| - 1)]
  }

  lemma {:induction false} TrueRangesAt(cs: seq<Candle>, i: nat)
    requires i < |cs|
    ensures TrueRanges(cs)[i] == RangeAt(cs, i)
  {
    if i < |cs| - 1 {
      TrueRangesAt(cs[..|cs| - 1], i);
    }
  }

  function Atr(cs: seq<Candle>, period: nat): real
    requires 1 <= period <= |cs|
  {
    Wilder(TrueRanges(cs), period)
  }

  method AtrOf(cs: seq<Candle>, period: int) returns (r: Reading)
    ensures r == if period <= 0 then Invalid else if |cs| < period then TooShort else Value(Atr(cs, period))
  {
    if period <= 0 {
      return Invalid;
    }
    if |cs| < period {
      return TooShort;
    }
    var ranges: seq<real> := [];
    var previousClose: Option<real> := None;
    var i := 0;
    while i < |cs|
      invariant 0 <= i <= |cs|
      invariant ranges == TrueRanges(cs[..i])
      invariant previousClose == if i == 0 then None else Some(cs[i - 1].close)
    {
      assert cs[..i + 1][..i] == cs[..i];
      ranges := ranges + [TrueRange(cs[i], previousClose)];
      previousClose := Some(cs[i].close);
      i := i + 1;
    }
    assert cs[..i] == cs;
    var current := WilderLoop(ranges, period);
    r := Value(current);
  }

  /** The true range spans the candle and the previous close. */
  lemma TrueRangeIsSpan(c: Candle, close: real)
    requires c.low <= c.high
    ensures TrueRange(c, Some(close)) == Max(c.high, close) - Min(c.low, close)
    ensures TrueRange(c, Some(close)) >= TrueRange(c, None) >= 0.0
  {
  }

  /** The ATR stays between the smallest and the largest true range. */
  lemma AtrWithinRanges(cs: seq<Candle>, period: nat, lo: real, hi: real)
    requires 1 <= period <= |cs|
    requires forall i :: 0 <= i < |cs| ==> lo <= RangeAt(cs, i) <= hi
    ensures lo <= Atr(cs, period) <= hi
  {
    forall i | 0 <= i < |cs|
      ensures lo <= TrueRanges(cs)[i] <= hi
    {
      TrueRangesAt(cs, i);
    }
    WilderBounds(TrueRanges(cs), period, lo, hi);
  }

  lemma RangesSnoc(cs: seq<Candle>)
    requires cs != []
    ensures TrueRanges(cs) == TrueRanges(cs[..|cs| - 1]) + [RangeAt(cs, |cs| - 1)]
  {
  }

  /** Over the first `period` candles the ATR is the mean of their true ranges. */
  lemma AtrStarts(cs: seq<Candle>)
    requires cs != []
    ensures Atr(cs, |cs|) == Mean(TrueRanges(cs))
  {
    SmoothSnoc(WilderStep(|cs|), TrueRanges(cs), |cs|);
  }

  /** With each further candle the ATR moves by one part in `period` towards its true range. */
  lemma AtrNewest(cs: seq<Candle>, c: Candle, period: nat)
    requires 1 <= period <= |cs|
    ensures Atr(cs + [c], period) == Toward(Atr(cs, period), TrueRange(c, Some(cs[|cs| - 1].close)), period)
  {
    var range := TrueRange(c, Some(cs[|cs| - 1].close));
    RangesSnoc(cs + [c]);
    assert (cs + [c])[..|cs|] == cs && RangeAt(cs + [c], |cs|) == range;
    WilderExtends(TrueRanges(cs), range, period);
  }

  /** Both averages behind the RSI move by one part in `period` towards the newest gain and the newest loss, of
      which at most one is not zero. */
  lemma AveragesNewest(xs: seq<real>, period: nat)
    requires 1 <= period && period + 1 < |xs|
    ensures var n := |xs| - 1;
      var rise := xs[n] - xs[n - 1];
      var gain, loss := if rise > 0.0 then rise else 0.0, if rise < 0.0 then -rise else 0.0;
      && AverageGain(xs, period) == Toward(AverageGain(xs[..n], period), gain, period)
      && AverageLoss(xs, period) == Toward(AverageLoss(xs[..n], period), loss, period)
  {
    GainNewest(xs, period);
    LossNewest(xs, period);
  }

  lemma GainNewest(xs: seq<real>, period: nat)
    requires 1 <= period && period + 1 < |xs|
    ensures var n := |xs| - 1;
      AverageGain(xs, period) == Toward(AverageGain(xs[..n], period), GainOf()(xs[n] - xs[n - 1]), period)
  {
    var n := |xs| - 1;
    MovesSnoc(xs);
    WilderExtends(Map(GainOf(), Changes(xs[..n])), GainOf()(xs[n] - xs[n - 1]), period);
  }

  lemma LossNewest(xs: seq<real>, period: nat)
    requires 1 <= period && period + 1 < |xs|
    ensures var n := |xs| - 1;
      AverageLoss(xs, period) == Toward(AverageLoss(xs[..n], period), LossOf()(xs[n] - xs[n - 1]), period)
  {
    var n := |xs| - 1;
    MovesSnoc(xs);
    WilderExtends(Map(LossOf(), Changes(xs[..n])), LossOf()(xs[n] - xs[n - 1]), period);
  }

  lemma MovesSnoc(xs: seq<real>)
    requires |xs| > 1
    ensures var n := |xs| - 1;
      var before, rise := Changes(xs[..n]), xs[n] - xs[n - 1];
      && Map(GainOf(), Changes(xs)) == Map(GainOf(), before) + [GainOf()(rise)]
      && Map(LossOf(), Changes(xs)) == Map(LossOf(), before) + [LossOf()(rise)]
  {
    var n := |xs| - 1;
    var before, rise := Changes(xs[..n]), xs[n] - xs[n - 1];
    MapConcat(GainOf(), before, [rise]);
    MapConcat(LossOf(), before, [rise]);
    ImageOfOne(GainOf(), rise);
    ImageOfOne(LossOf(), rise);
  }
}
