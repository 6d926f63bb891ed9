/** Outcome evaluation of app/ai/evaluation.py. Times are UTC seconds. */
module Evaluation {
  import opened Prelude

  datatype Direction = Bullish | Bearish | Sideways
  datatype Horizon = FiveMinutes | FifteenMinutes | OneHour

  const HORIZONS: seq<Horizon> := [FiveMinutes, FifteenMinutes, OneHour]

  function Delay(h: Horizon): int {
    match h
    case FiveMinutes => 300
    case FifteenMinutes => 900
    case OneHour => 3600
  }

  /** Per-horizon values of a snapshot that replace its general ones. */
  datatype HorizonState = HorizonState(confidence: Option<int>, action: Option<string>, abstain: Option<bool>)

  datatype Advice = Advice(
    symbol: string,
    timestamp: int,
    bias: Direction,
    confidence: int,
    entrySignal: bool,
    exitSignal: bool,
    action: string,
    abstain: bool,
    closePrice: real,
    horizons: map<Horizon, HorizonState>)

  datatype Close = Close(time: int, price: real)

  datatype Sample = Sample(
    symbol: string,
    snapshotTime: int,
    horizon: Horizon,
    bias: Direction,
    confidence: int,
    entrySignal: bool,
    exitSignal: bool,
    action: string,
    baseline: real,
    future: real,
    change: real,
    observed: Direction,
    correct: bool,
    falsePositive: bool,
    falseReversal: bool,
    abstained: bool)

  function Classify(change: real): Direction {
    if change >= 0.001 then Bullish else if change <= -0.001 then Bearish else Sideways
  }

  function OrElse<T>(x: Option<T>, default: T): T {
    if x.Some? then x.value else default
  }

  function BuildSample(a: Advice, future: Close, h: Horizon): Sample {
    var change := if a.closePrice > 0.0 then (future.price - a.closePrice) / a.closePrice else 0.0;
    var observed := Classify(change);
    var correct := a.bias == observed;
    var state := if h in a.horizons then a.horizons[h] else HorizonState(None, None, None);
    var action := OrElse(state.action, a.action);
    var abstained := OrElse(state.abstain, a.abstain);
    Sample(a.symbol, a.timestamp, h, a.bias, OrElse(state.confidence, a.confidence), a.entrySignal, a.exitSignal,
      action, a.closePrice, future.price, change, observed, correct,
      !abstained && (a.entrySignal || a.exitSignal || action == "enter" || action == "exit") && !correct,
      (a.bias == Bullish && observed == Bearish) || (a.bias == Bearish && observed == Bullish),
      abstained)
  }

  /** What the flags of a sample mean in prices: a bullish call is right when the price gained at least
      0.1%, a bearish one when it lost that much, a sideways one strictly between; a reversal is a move of
      that size against the call; and a false positive is an action taken on a wrong call. */
  lemma SampleMeansPrices(a: Advice, future: Close, h: Horizon)
    requires a.closePrice > 0.0
    ensures var s := BuildSample(a, future, h);
      var rose, fell := future.price >= 1.001 * a.closePrice, future.price <= 0.999 * a.closePrice;
      && (s.correct <==> match a.bias case Bullish => rose case Bearish => fell case Sideways => !rose && !fell)
      && (s.falseReversal <==> match a.bias case Bullish => fell case Bearish => rose case Sideways => false)
      && (s.falsePositive <==>
          !s.correct && !s.abstained
          && (a.entrySignal || a.exitSignal || s.action == "enter" || s.action == "exit"))
  {
    RelativeChange(future.price, a.closePrice);
  }

  lemma RelativeChange(price: real, base: real)
    requires base > 0.0
    ensures (price - base) / base >= 0.001 <==> price >= 1.001 * base
    ensures (price - base) / base <= -0.001 <==> price <= 0.999 * base
  {
    var q := (price - base) / base;
    assert q * base == price - base;
    LessTimes(q, 0.001, base);
    LessTimes(-0.001, q, base);
  }

  // ----- the chosen candle -----

  ghost predicate Ordered(times: seq<int>) {
    forall i, j :: 0 <= i < j < |times| ==> times[i] <= times[j]
  }

  /** The first position at or after the target, or the length. */
  function Earliest(times: seq<int>, target: int): (k: nat)
    ensures k <= |times|
    ensures forall i :: 0 <= i < k ==> times[i] < target
    ensures k < |times| ==> times[k] >= target
  {
    if times == [] || times[0] >= target then 0 else 1 + Earliest(times[1..], target)
  }

  /** Python's `bisect_left`. */
  method BisectLeft(times: seq<int>, target: int) returns (lo: nat)
    requires Ordered(times)
    ensures lo == Earliest(times, target)
  {
    lo := 0;
    var hi := |times|;
    while lo < hi
      invariant 0 <= lo <= Earliest(times, target) <= hi <= |times|
    {
      var mid := (lo + hi) / 2;
      if times[mid] < target {
        assert forall i :: 0 <= i <= mid ==> times[i] <= times[mid];
        lo := mid + 1;
      } else {
        hi := mid;
      }
    }
  }

  function Times(closes: seq<Close>): (times: seq<int>)
    ensures |times| == |closes| && forall i :: 0 <= i < |times| ==> times[i] == closes[i].time
  {
    seq(|closes|, i requires 0 <= i < |closes| => closes[i].time)
  }

  function FutureCandle(closes: seq<Close>, target: int): Option<Close> {
    var k := Earliest(Times(closes), target);
    if k >= |closes| then None else Some(closes[k])
  }

  function FutureOf(a: Advice, closes: seq<Close>, h: Horizon): Option<Close> {
    FutureCandle(closes, a.timestamp + Delay(h))
  }

  method FindFutureCandle(closes: seq<Close>, times: seq<int>, target: int) returns (found: Option<Close>)
    requires times == Times(closes) && Ordered(times)
    ensures found == FutureCandle(closes, target)
  {
    var index := BisectLeft(times, target);
    if index >= |closes| {
      return None;
    }
    found := Some(closes[index]);
  }

  // ----- the samples -----

  /** The sample of one advice at one horizon, if its outcome is known. */
  function Outcome(a: Advice, closes: seq<Close>, h: Horizon): seq<Sample> {
    var future := FutureOf(a, closes, h);
    if future.None? then [] else [BuildSample(a, future.value, h)]
  }

  /** The samples of one horizon, in the order of the advice. */
  function SamplesFor(history: seq<Advice>, closes: seq<Close>, h: Horizon): seq<Sample> {
    if history == [] then []
    else
      var n := |history| - 1;
      SamplesFor(history[..n], closes, h) + Outcome(history[n], closes, h)
  }

  ghost predicate Collected(samples: map<Horizon, seq<Sample>>, history: seq<Advice>, closes: seq<Close>) {
    forall h :: h in samples && samples[h] == SamplesFor(history, closes, h)
  }

  lemma CollectNone(closes: seq<Close>)
    ensures Collected(map[FiveMinutes := [], FifteenMinutes := [], OneHour := []], [], closes)
  {
    var none: map<Horizon, seq<Sample>> := map[FiveMinutes := [], FifteenMinutes := [], OneHour := []];
    forall h
      ensures h in none
    {
      assert h == HORIZONS[Position(h)];
    }
  }

  lemma CollectOne(before: map<Horizon, seq<Sample>>, history: seq<Advice>, closes: seq<Close>, a: Advice,
                   samples: map<Horizon, seq<Sample>>)
    requires Collected(before, history, closes)
    requires forall h :: h in samples && samples[h] == before[h] + Outcome(a, closes, h)
    ensures Collected(samples, history + [a], closes)
  {
    assert (history + [a])[..|history|] == history;
  }

  method BuildSamples(history: seq<Advice>, closes: seq<Close>) returns (samples: map<Horizon, seq<Sample>>)
    requires Ordered(Times(closes))
    ensures forall h :: h in samples && samples[h] == SamplesFor(history, closes, h)
  {
    samples := map[FiveMinutes := [], FifteenMinutes := [], OneHour := []];
    var times := Times(closes);
    CollectNone(closes);
    assert history[..0] == [];
    var i := 0;
    while i < |history|
      invariant 0 <= i <= |history|
      invariant Collected(samples, history[..i], closes)
    {
      ghost var before := samples;
      samples := AddOutcomes(samples, history[i], closes, times);
      CollectOne(before, history[..i], closes, history[i], samples);
      assert history[..i + 1] == history[..i] + [history[i]];
      i := i + 1;
    }
    assert history[..i] == history;
  }

  /** The inner loop after `k` horizons, each of which gains what `gain` names. */
  ghost predicate Partly(samples: map<Horizon, seq<Sample>>, before: map<Horizon, seq<Sample>>,
                         gain: Horizon -> seq<Sample>, k: nat)
    requires forall h: Horizon :: h in before
  {
    forall h :: h in samples && samples[h] == if Position(h) < k then before[h] + gain(h) else before[h]
  }

  lemma OneMore(samples: map<Horizon, seq<Sample>>, before: map<Horizon, seq<Sample>>,
                gain: Horizon -> seq<Sample>, k: nat, h: Horizon)
    requires (forall h: Horizon :: h in before) && Partly(samples, before, gain, k) && Position(h) == k
    ensures Partly(samples[h := samples[h] + gain(h)], before, gain, k + 1)
  {
    forall g: Horizon | Position(g) == k
      ensures g == h
    {
      assert HORIZONS[Position(g)] == HORIZONS[Position(h)];
    }
  }

  /** The inner loop: one advice at every horizon. */
  method AddOutcomes(before: map<Horizon, seq<Sample>>, a: Advice, closes: seq<Close>, times: seq<int>)
    returns (samples: map<Horizon, seq<Sample>>)
    requires times == Times(closes) && Ordered(times) && forall h: Horizon :: h in before
    ensures forall h :: h in samples && samples[h] == before[h] + Outcome(a, closes, h)
  {
    ghost var gain: Horizon -> seq<Sample> := h => Outcome(a, closes, h);
    samples := before;
    var k := 0;
    while k < |HORIZONS|
      invariant 0 <= k <= |HORIZONS|
      invariant Partly(samples, before, gain, k)
    {
      OneMore(samples, before, gain, k, HORIZONS[k]);
      samples := AddOutcome(samples, a, closes, times, HORIZONS[k]);
      k := k + 1;
    }
  }

  method AddOutcome(before: map<Horizon, seq<Sample>>, a: Advice, closes: seq<Close>, times: seq<int>, h: Horizon)
    returns (samples: map<Horizon, seq<Sample>>)
    requires times == Times(closes) && Ordered(times) && h in before
    ensures samples == before[h := before[h] + Outcome(a, closes, h)]
  {
    var future := FindFutureCandle(closes, times, a.timestamp + Delay(h));
    if future.None? {
      assert before[h] + Outcome(a, closes, h) == before[h];
      return before;
    }
    samples := before[h := before[h] + [BuildSample(a, future.value, h)]];
  }

  function Position(h: Horizon): (k: nat)
    ensures k < 3 && HORIZONS[k] == h
    ensures forall j :: 0 <= j < 3 && HORIZONS[j] == h ==> j == k
  {
    match h
    case FiveMinutes => 0
    case FifteenMinutes => 1
    case OneHour => 2
  }

  /** An evaluated outcome uses the earliest candle that closes at or after the horizon, and never one before. */
  lemma ChosenIsEarliest(closes: seq<Close>, target: int)
    requires Ordered(Times(closes))
    ensures match FutureCandle(closes, target)
      case None => forall i :: 0 <= i < |closes| ==> closes[i].time < target
      case Some(c) => c in closes && c.time >= target
                      && forall i :: 0 <= i < |closes| && closes[i].time >= target ==> c.time <= closes[i].time
  {
    var k := Earliest(Times(closes), target);
    forall i | k < i < |closes|
      ensures closes[k].time <= closes[i].time
    {
      assert Times(closes)[k] <= Times(closes)[i];
    }
  }

  lemma EarliestMonotone(times: seq<int>, s: int, t: int)
    requires s <= t
    ensures Earliest(times, s) <= Earliest(times, t)
  {
    var k, m := Earliest(times, s), Earliest(times, t);
    assert m < |times| ==> times[m] >= s;
    assert forall i :: 0 <= i < k ==> times[i] < s;
  }

  predicate Shorter(g: Horizon, h: Horizon) {
    Delay(g) <= Delay(h)
  }

  ghost predicate SampleOf(s: Sample, a: Advice, closes: seq<Close>, h: Horizon) {
    s in Outcome(a, closes, h)
  }

  lemma {:induction false} SampleExists(history: seq<Advice>, closes: seq<Close>, h: Horizon, a: Advice, s: Sample)
    requires a in history && SampleOf(s, a, closes, h)
    ensures s in SamplesFor(history, closes, h)
  {
    var n := |history| - 1;
    assert history == history[..n] + [history[n]];
    if a in history[..n] {
      SampleExists(history[..n], closes, h, a, s);
    }
  }

  /** The advice behind each sample. */
  lemma {:induction false} SampleOrigin(history: seq<Advice>, closes: seq<Close>, h: Horizon, s: Sample)
    requires s in SamplesFor(history, closes, h)
    ensures exists a :: a in history && SampleOf(s, a, closes, h)
  {
    var n := |history| - 1;
    assert history == history[..n] + [history[n]];
    if s in SamplesFor(history[..n], closes, h) {
      SampleOrigin(history[..n], closes, h, s);
    } else {
      assert SampleOf(s, history[n], closes, h);
    }
  }

  /** Advice evaluated over an hour is evaluated over fifteen minutes, and that over five; the candle of the
      shorter horizon stands no later. */
  lemma HorizonsNest(a: Advice, closes: seq<Close>, g: Horizon, h: Horizon)
    requires Shorter(g, h)
    ensures Earliest(Times(closes), a.timestamp + Delay(g)) <= Earliest(Times(closes), a.timestamp + Delay(h))
    ensures FutureOf(a, closes, h).Some? ==> FutureOf(a, closes, g).Some?
  {
    EarliestMonotone(Times(closes), a.timestamp + Delay(g), a.timestamp + Delay(h));
  }

  lemma {:induction false} ShorterHasMoreSamples(history: seq<Advice>, closes: seq<Close>, g: Horizon, h: Horizon)
    requires Shorter(g, h)
    ensures |SamplesFor(history, closes, h)| <= |SamplesFor(history, closes, g)|
  {
    if history != [] {
      var n := |history| - 1;
      ShorterHasMoreSamples(history[..n], closes, g, h);
      HorizonsNest(history[n], closes, g, h);
    }
  }

  /** Two samples of one advice. */
  ghost predicate Counterparts(s: Sample, t: Sample, history: seq<Advice>, closes: seq<Close>, g: Horizon, h: Horizon) {
    exists a :: a in history && SampleOf(s, a, closes, h) && SampleOf(t, a, closes, g)
  }

  /** Every sample of a longer horizon has its counterpart, of the same advice, at every shorter one. */
  lemma SamplesNest(history: seq<Advice>, closes: seq<Close>, g: Horizon, h: Horizon, s: Sample)
    requires Shorter(g, h) && s in SamplesFor(history, closes, h)
    ensures exists t :: t in SamplesFor(history, closes, g) && Counterparts(s, t, history, closes, g, h)
  {
    SampleOrigin(history, closes, h, s);
    var a :| a in history && SampleOf(s, a, closes, h);
    HorizonsNest(a, closes, g, h);
    var t := Outcome(a, closes, g)[0];
    assert SampleOf(t, a, closes, g);
    SampleExists(history, closes, g, a, t);
    assert Counterparts(s, t, history, closes, g, h);
  }

  // ----- the summary -----

  datatype Summary = Summary(
    horizon: Horizon,
    size: nat,
    accuracyPct: real,
    calibrationPct: real,
    actionable: nat,
    abstained: int,
    abstainPct: real,
    falsePositives: nat,
    falsePositivePct: real,
    falseReversals: nat,
    falseReversalPct: real)

  function Count(samples: seq<Sample>, test: Sample -> bool): (n: nat)
    ensures n <= |samples|
  {
    if samples == [] then 0
    else Count(samples[..|samples| - 1], test) + if test(samples[|samples| - 1]) then 1 else 0
  }

  function RoundPercent(share: real): real {
    RoundHalfUp(share * 100.0 * 100.0) as real / 100.0
  }

  function SharePct(part: nat, whole: nat): real {
    if whole > 0 then RoundPercent(part as real / whole as real) else 0.0
  }

  function CalibrationError(s: Sample): real {
    Abs(s.confidence as real / 100.0 - if s.correct then 1.0 else 0.0)
  }

  function TotalError(samples: seq<Sample>): real {
    if samples == [] then 0.0
    else TotalError(samples[..|samples| - 1]) + CalibrationError(samples[|samples| - 1])
  }

  function CalibrationPct(error: real, size: nat): real
    requires size > 0
  {
    RoundPercent(Max(0.0, 1.0 - error / size as real))
  }

  function IsCorrect(): Sample -> bool {
    (s: Sample) => s.correct
  }

  function IsActionable(): Sample -> bool {
    (s: Sample) => !s.abstained
  }

  function IsFalsePositive(): Sample -> bool {
    (s: Sample) => s.falsePositive
  }

  function IsFalseReversal(): Sample -> bool {
    (s: Sample) => s.falseReversal
  }

  function BuildSummary(h: Horizon, samples: seq<Sample>): Summary {
    var size := |samples|;
    if size == 0 then Summary(h, 0, 0.0, 0.0, 0, 0, 0.0, 0, 0.0, 0, 0.0)
    else
      Summarised(h, samples, Shares(), CalibrationPct(TotalError(samples), size))
  }

  function Shares(): (nat, nat) -> real {
    (part: nat, whole: nat) => SharePct(part, whole)
  }

  /** The counts of some samples and their shares. */
  function Summarised(h: Horizon, samples: seq<Sample>, share: (nat, nat) -> real, calibrationPct: real): Summary {
    var size, actionable := |samples|, Count(samples, IsActionable());
    var abstained := size - actionable;
    var positives, reversals := Count(samples, IsFalsePositive()), Count(samples, IsFalseReversal());
    Summary(h, size, share(Count(samples, IsCorrect()), size), calibrationPct,
      actionable, abstained, share(abstained, size),
      positives, share(positives, actionable),
      reversals, share(reversals, size))
  }

  /** How the flags of one sample hang together. */
  predicate Coherent(s: Sample) {
    (s.falsePositive ==> !s.abstained && !s.correct) && (s.falseReversal ==> !s.correct)
  }

  lemma BuiltSamplesAreCoherent(history: seq<Advice>, closes: seq<Close>, h: Horizon)
    ensures forall s :: s in SamplesFor(history, closes, h) ==> Coherent(s) && s.horizon == h
  {
    forall s | s in SamplesFor(history, closes, h)
      ensures Coherent(s) && s.horizon == h
    {
      SampleOrigin(history, closes, h, s);
    }
  }

  ghost predicate Implies(p: Sample -> bool, q: Sample -> bool, s: Sample) {
    p(s) ==> q(s)
  }

  lemma {:induction false} CountOfWeaker(samples: seq<Sample>, p: Sample -> bool, q: Sample -> bool)
    requires forall s :: s in samples ==> Implies(p, q, s)
    ensures Count(samples, p) <= Count(samples, q)
  {
    if samples != [] {
      var n := |samples| - 1;
      assert Implies(p, q, samples[n]);
      forall s | s in samples[..n]
        ensures Implies(p, q, s)
      {
        assert s in samples;
      }
      CountOfWeaker(samples[..n], p, q);
    }
  }

  ghost predicate Complementary(p: Sample -> bool, q: Sample -> bool, s: Sample) {
    p(s) <==> !q(s)
  }

  lemma {:induction false} CountOfComplement(samples: seq<Sample>, p: Sample -> bool, q: Sample -> bool)
    requires forall s :: Complementary(p, q, s)
    ensures Count(samples, p) + Count(samples, q) == |samples|
  {
    if samples != [] {
      CountOfComplement(samples[..|samples| - 1], p, q);
      assert Complementary(p, q, samples[|samples| - 1]);
    }
  }

  lemma RoundPercentRange(share: real)
    requires 0.0 <= share <= 1.0
    ensures 0.0 <= RoundPercent(share) <= 100.0
  {
    var x := share * 100.0 * 100.0;
    RoundHalfUpFacts(0.0, x);
    RoundHalfUpFacts(x, 10000.0);
    assert RoundHalfUp(0.0) == 0 && RoundHalfUp(10000.0) == 10000;
  }

  lemma SharePctRange(part: nat, whole: nat)
    requires part <= whole
    ensures 0.0 <= SharePct(part, whole) <= 100.0
  {
    if whole > 0 {
      DivisionBounds(part as real, whole as real, 0.0, 1.0);
      RoundPercentRange(part as real / whole as real);
    }
  }

  ghost predicate IsConfidence(c: int) {
    0 <= c <= 100
  }

  lemma {:induction false} ErrorRange(samples: seq<Sample>)
    requires forall s :: s in samples ==> IsConfidence(s.confidence)
    ensures 0.0 <= TotalError(samples) <= |samples| as real
  {
    if samples != [] {
      var n := |samples| - 1;
      forall s | s in samples[..n]
        ensures IsConfidence(s.confidence)
      {
        assert s in samples;
      }
      ErrorRange(samples[..n]);
      assert IsConfidence(samples[n].confidence);
    }
  }

  /** The counts of a summary hang together. */
  lemma SummaryCounts(h: Horizon, samples: seq<Sample>)
    requires forall s :: s in samples ==> Coherent(s)
    ensures var r := BuildSummary(h, samples);
      && r.size == |samples| && r.abstained + r.actionable == r.size && r.abstained >= 0
      && r.falsePositives <= MinInt(r.actionable, r.size - Count(samples, IsCorrect()))
      && r.falseReversals <= r.size - Count(samples, IsCorrect())
  {
    CountLaws(samples);
  }

  /** Every rate is a percentage. */
  lemma SummaryRates(h: Horizon, samples: seq<Sample>)
    requires forall s :: s in samples ==> Coherent(s)
    ensures var r := BuildSummary(h, samples);
      && 0.0 <= r.accuracyPct <= 100.0 && 0.0 <= r.abstainPct <= 100.0
      && 0.0 <= r.falsePositivePct <= 100.0 && 0.0 <= r.falseReversalPct <= 100.0
  {
    CountLaws(samples);
    SharePctRange(Count(samples, IsCorrect()), |samples|);
    SharePctRange(|samples| - Count(samples, IsActionable()), |samples|);
    SharePctRange(Count(samples, IsFalsePositive()), Count(samples, IsActionable()));
    SharePctRange(Count(samples, IsFalseReversal()), |samples|);
  }

  /** With confidences from 0 to 100 the calibration score is a percentage and exactly one minus the mean
      error: its lower clamp never acts. */
  lemma CalibrationIsExact(h: Horizon, samples: seq<Sample>)
    requires samples != [] && forall s :: s in samples ==> IsConfidence(s.confidence)
    ensures 0.0 <= BuildSummary(h, samples).calibrationPct <= 100.0
    ensures BuildSummary(h, samples).calibrationPct == RoundPercent(1.0 - MeanError(samples))
  {
    ErrorRange(samples);
    ClampIsIdle(TotalError(samples), |samples|);
  }

  function MeanError(samples: seq<Sample>): real
    requires samples != []
  {
    TotalError(samples) / |samples| as real
  }

  lemma ClampIsIdle(error: real, size: nat)
    requires size > 0 && 0.0 <= error <= size as real
    ensures CalibrationPct(error, size) == RoundPercent(1.0 - error / size as real)
    ensures 0.0 <= CalibrationPct(error, size) <= 100.0
  {
    DivisionBounds(error, size as real, 0.0, 1.0);
    RoundPercentRange(1.0 - error / size as real);
  }

  lemma CountLaws(samples: seq<Sample>)
    requires forall s :: s in samples ==> Coherent(s)
    ensures Count(samples, IsFalsePositive()) <= Count(samples, IsActionable())
    ensures Count(samples, IsFalsePositive()) <= |samples| - Count(samples, IsCorrect())
    ensures Count(samples, IsFalseReversal()) <= |samples| - Count(samples, IsCorrect())
  {
    var wrong: Sample -> bool := (s: Sample) => !s.correct;
    forall s | s in samples
      ensures Implies(IsFalsePositive(), IsActionable(), s)
      ensures Implies(IsFalsePositive(), wrong, s) && Implies(IsFalseReversal(), wrong, s)
    {
      assert Coherent(s);
    }
    forall s
      ensures Complementary(wrong, IsCorrect(), s)
    {
    }
    CountOfWeaker(samples, IsFalsePositive(), IsActionable());
    CountOfWeaker(samples, IsFalsePositive(), wrong);
    CountOfWeaker(samples, IsFalseReversal(), wrong);
    CountOfComplement(samples, wrong, IsCorrect());
  }

  // ----- what the numbers of a summary mean -----

  /** The positions at which a test holds. */
  function Where(samples: seq<Sample>, test: Sample -> bool): set<nat> {
    set i: nat | i < |samples| && test(samples[i])
  }

  lemma {:induction false} CountIsCardinality(samples: seq<Sample>, test: Sample -> bool)
    ensures Count(samples, test) == |Where(samples, test)|
  {
    if samples != [] {
      var n := |samples| - 1;
      CountIsCardinality(samples[..n], test);
      var front := Where(samples[..n], test);
      assert Where(samples, test) == if test(samples[n]) then front + {n} else front;
    }
  }

  /** `pct` is the percentage `part` of `whole`, to the nearest hundredth, and exactly so for none and all. */
  predicate IsPercentOf(pct: real, part: nat, whole: nat) {
    && (whole == 0 ==> pct == 0.0)
    && (whole > 0 ==> -0.005 <= pct - 100.0 * part as real / whole as real <= 0.005)
    && (part == 0 ==> pct == 0.0)
    && (part == whole > 0 ==> pct == 100.0)
  }

  lemma RoundPercentNear(share: real)
    ensures -0.005 <= RoundPercent(share) - 100.0 * share <= 0.005
  {
    RoundHalfUpFacts(share * 100.0 * 100.0, 0.0);
  }

  lemma SharePctIsPercent(part: nat, whole: nat)
    ensures IsPercentOf(SharePct(part, whole), part, whole)
  {
    if whole > 0 {
      var share := part as real / whole as real;
      assert share * whole as real == part as real;
      RoundPercentNear(share);
      Divides(100.0 * part as real, whole as real, 100.0 * share);
      if part == 0 {
        Divides(0.0, whole as real, 0.0);
        assert RoundHalfUp(0.0) == 0;
      }
      if part == whole {
        Divides(part as real, whole as real, 1.0);
        assert RoundHalfUp(10000.0) == 10000;
      }
    }
  }

  /** The counts of a summary are numbers of samples and its rates their percentages: of all samples, or of the
      actionable ones for the false positives. */
  lemma SummaryMeans(h: Horizon, samples: seq<Sample>)
    ensures var r, n := BuildSummary(h, samples), |samples|;
      && r.horizon == h && r.size == n
      && r.actionable == |Acted(samples)| && r.abstained == |Idle(samples)|
      && r.falsePositives == |Positive(samples)| && r.falseReversals == |Reversed(samples)|
      && IsPercentOf(r.accuracyPct, |Right(samples)|, n) && IsPercentOf(r.abstainPct, |Idle(samples)|, n)
      && IsPercentOf(r.falsePositivePct, |Positive(samples)|, |Acted(samples)|)
      && IsPercentOf(r.falseReversalPct, |Reversed(samples)|, n)
  {
    CountIsCardinality(samples, IsCorrect());
    CountIsCardinality(samples, IsActionable());
    CountIsCardinality(samples, IsFalsePositive());
    CountIsCardinality(samples, IsFalseReversal());
    IdleIsRest(samples);
    WhereIsSet(samples);
    SummaryFields(h, samples);
    var r := BuildSummary(h, samples);
    PercentOf(r.accuracyPct, |Right(samples)|, |samples|);
    PercentOf(r.abstainPct, |Idle(samples)|, |samples|);
    PercentOf(r.falsePositivePct, |Positive(samples)|, |Acted(samples)|);
    PercentOf(r.falseReversalPct, |Reversed(samples)|, |samples|);
  }

  /** The positions of the samples that were right, acted on, not acted on, false positives and false reversals. */
  function Right(samples: seq<Sample>): set<nat> {
    set i: nat | i < |samples| && samples[i].correct
  }

  function Acted(samples: seq<Sample>): set<nat> {
    set i: nat | i < |samples| && !samples[i].abstained
  }

  function Idle(samples: seq<Sample>): set<nat> {
    set i: nat | i < |samples| && samples[i].abstained
  }

  function Positive(samples: seq<Sample>): set<nat> {
    set i: nat | i < |samples| && samples[i].falsePositive
  }

  function Reversed(samples: seq<Sample>): set<nat> {
    set i: nat | i < |samples| && samples[i].falseReversal
  }

  lemma WhereIsSet(samples: seq<Sample>)
    ensures Where(samples, IsCorrect()) == Right(samples) && Where(samples, IsActionable()) == Acted(samples)
    ensures Where(samples, IsFalsePositive()) == Positive(samples)
    ensures Where(samples, IsFalseReversal()) == Reversed(samples)
  {
  }

  lemma {:induction false} IdleIsRest(samples: seq<Sample>)
    ensures |Idle(samples)| == |samples| - Count(samples, IsActionable())
  {
    if samples != [] {
      var n := |samples| - 1;
      IdleIsRest(samples[..n]);
      var front := Idle(samples[..n]);
      assert Idle(samples) == if samples[n].abstained then front + {n} else front;
    }
  }

  lemma SummaryFields(h: Horizon, samples: seq<Sample>)
    ensures var r, n, acted := BuildSummary(h, samples), |samples|, Count(samples, IsActionable());
      && r.horizon == h && r.size == n && r.actionable == acted && r.abstained == n - acted
      && r.falsePositives == Count(samples, IsFalsePositive()) && r.falseReversals == Count(samples, IsFalseReversal())
      && r.accuracyPct == SharePct(Count(samples, IsCorrect()), n) && r.abstainPct == SharePct(n - acted, n)
      && r.falsePositivePct == SharePct(r.falsePositives, acted) && r.falseReversalPct == SharePct(r.falseReversals, n)
  {
    if samples == [] {
      NoShare(0);
    } else {
      SummarisedShares(h, samples, Shares(), CalibrationPct(TotalError(samples), |samples|));
    }
  }

  lemma NoShare(part: nat)
    ensures SharePct(part, 0) == 0.0
  {
  }

  lemma SummarisedShares(h: Horizon, samples: seq<Sample>, share: (nat, nat) -> real, calibrationPct: real)
    ensures var r, n, acted := Summarised(h, samples, share, calibrationPct), |samples|, Count(samples, IsActionable());
      && r.horizon == h && r.size == n && r.actionable == acted && r.abstained == n - acted
      && r.falsePositives == Count(samples, IsFalsePositive()) && r.falseReversals == Count(samples, IsFalseReversal())
      && r.accuracyPct == share(Count(samples, IsCorrect()), n) && r.abstainPct == share(n - acted, n)
      && r.falsePositivePct == share(r.falsePositives, acted) && r.falseReversalPct == share(r.falseReversals, n)
  {
  }

  lemma PercentOf(pct: real, part: nat, whole: nat)
    requires pct == SharePct(part, whole)
    ensures IsPercentOf(pct, part, whole)
  {
    SharePctIsPercent(part, whole);
  }

  /** Confidence points that were wrong: what is missing to 100 for a right call, all of it for a wrong one. */
  function PointsOff(samples: seq<Sample>): int {
    if samples == [] then 0
    else
      var s := samples[|samples| - 1];
      PointsOff(samples[..|samples| - 1]) + if s.correct then 100 - s.confidence else s.confidence
  }

  lemma {:induction false} ErrorIsPointsOff(samples: seq<Sample>)
    requires forall s :: s in samples ==> IsConfidence(s.confidence)
    ensures 100.0 * TotalError(samples) == PointsOff(samples) as real
  {
    if samples != [] {
      var n := |samples| - 1;
      forall s | s in samples[..n]
        ensures IsConfidence(s.confidence)
      {
        assert s in samples;
      }
      ErrorIsPointsOff(samples[..n]);
      assert IsConfidence(samples[n].confidence);
    }
  }

  /** The calibration score is 100 less the mean of the wrong confidence points, to the nearest hundredth; for no
      samples it is 0. */
  lemma CalibrationMeans(h: Horizon, samples: seq<Sample>)
    requires forall s :: s in samples ==> IsConfidence(s.confidence)
    ensures samples == [] ==> BuildSummary(h, samples).calibrationPct == 0.0
    ensures samples != [] ==>
      -0.005 <= BuildSummary(h, samples).calibrationPct - (100.0 - PointsOff(samples) as real / |samples| as real) <= 0.005
  {
    if samples != [] {
      CalibrationIsExact(h, samples);
      ErrorIsPointsOff(samples);
      RoundPercentNear(1.0 - MeanError(samples));
      HundredTimes(TotalError(samples), PointsOff(samples), |samples|);
    }
  }

  lemma HundredTimes(x: real, y: int, n: nat)
    requires n > 0 && 100.0 * x == y as real
    ensures 100.0 * (1.0 - x / n as real) == 100.0 - y as real / n as real
  {
    var q := x / n as real;
    assert q * n as real == x;
    Divides(y as real, n as real, 100.0 * q);
  }

  // ----- what a sample tells -----

  function Minutes(h: Horizon): int {
    match h
    case FiveMinutes => 5
    case FifteenMinutes => 15
    case OneHour => 60
  }

  /** Per-horizon values replace the general ones, each by itself. */
  predicate Effective(s: Sample, a: Advice, h: Horizon) {
    var own := h in a.horizons;
    && s.confidence == (if own && a.horizons[h].confidence.Some? then a.horizons[h].confidence.value else a.confidence)
    && s.action == (if own && a.horizons[h].action.Some? then a.horizons[h].action.value else a.action)
    && s.abstained == (if own && a.horizons[h].abstain.Some? then a.horizons[h].abstain.value else a.abstain)
  }

  ghost predicate FirstAfter(c: Close, closes: seq<Close>, earliest: int) {
    && c in closes && c.time >= earliest
    && forall i :: 0 <= i < |closes| && closes[i].time >= earliest ==> c.time <= closes[i].time
  }

  ghost predicate Tells(s: Sample, a: Advice, c: Close, h: Horizon) {
    && s.symbol == a.symbol && s.snapshotTime == a.timestamp && s.horizon == h && s.bias == a.bias
    && s.entrySignal == a.entrySignal && s.exitSignal == a.exitSignal
    && s.baseline == a.closePrice && s.future == c.price
    && (a.closePrice > 0.0 ==> a.closePrice * (1.0 + s.change) == c.price)
    && (a.closePrice <= 0.0 ==> s.change == 0.0 && (s.correct <==> a.bias == Sideways) && !s.falseReversal)
    && Effective(s, a, h)
  }

  /** Every sample of a horizon compares one advice with the first candle that closes at least that many minutes
      later: its prices and signals are those of the two, its confidence, action and abstention the horizon's. */
  lemma SampleTells(history: seq<Advice>, closes: seq<Close>, h: Horizon, s: Sample)
    requires Ordered(Times(closes)) && s in SamplesFor(history, closes, h)
    ensures exists a, c :: a in history && FirstAfter(c, closes, a.timestamp + 60 * Minutes(h)) && Tells(s, a, c, h)
  {
    SampleOrigin(history, closes, h, s);
    var a :| a in history && SampleOf(s, a, closes, h);
    var c := FutureOf(a, closes, h).value;
    ChosenIsFirst(a, closes, h);
    BuiltSampleTells(a, c, h);
    assert FirstAfter(c, closes, a.timestamp + 60 * Minutes(h)) && Tells(s, a, c, h);
  }

  lemma ChosenIsFirst(a: Advice, closes: seq<Close>, h: Horizon)
    requires Ordered(Times(closes)) && FutureOf(a, closes, h).Some?
    ensures FirstAfter(FutureOf(a, closes, h).value, closes, a.timestamp + 60 * Minutes(h))
  {
    ChosenIsEarliest(closes, a.timestamp + Delay(h));
    assert 60 * Minutes(h) == Delay(h);
  }

  lemma BuiltSampleTells(a: Advice, c: Close, h: Horizon)
    ensures Tells(BuildSample(a, c, h), a, c, h)
  {
    if a.closePrice > 0.0 {
      assert (c.price - a.closePrice) / a.closePrice * a.closePrice == c.price - a.closePrice;
    }
  }
}
