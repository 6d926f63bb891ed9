/** Signal fusion of app/fusion/scoring.py with the default weights of app/fusion/weights.py. Messages are
    left out except for the warnings, which are tags. */
module Fusion {
  import opened Prelude
  import P = Patterns
  import F = FlipRates

  datatype Agreement = BullishAlignment | BearishAlignment | Mixed | NoAgreement
  datatype AiRegime = Calm | Choppy | HighVolatilityUnstable | BreakoutBuilding | ReversalRisk
  datatype RiskFlag = Hype | Panic | NoFlag
  datatype Horizon = FiveMinutes | FifteenMinutes | OneHour
  datatype FinalSignal = Long | Short | Wait | ReduceRisk | ExitLong | ExitShort
  datatype RiskGrade = LowRisk | MediumRisk | HighRisk

  datatype Technical = Technical(
    ready: bool,
    trend: Option<P.Trend>,
    strength: Option<int>,
    agreement: Agreement,
    breakout: P.Readiness,
    bias: P.Bias,
    reversal: P.Readiness,
    volatility: P.Volatility)

  datatype Pattern = Pattern(
    ready: bool,
    direction: Option<P.Trend>,
    netReturn: Option<real>,
    character: Option<F.Character>,
    rangeBound: bool,
    reversalElevated: bool)

  datatype Ai = Ai(
    bias: P.Trend,
    confidence: int,
    abstain: bool,
    confirmationNeeded: bool,
    lowConfidence: bool,
    regime: AiRegime,
    preferredHorizon: Option<Horizon>)

  datatype Sentiment = Sentiment(
    ready: bool,
    score: Option<int>,
    confidence: Option<int>,
    riskFlag: RiskFlag,
    stable: bool)

  datatype TradeReadiness = TradeReadiness(
    runtimeActive: bool,
    enoughHistory: bool,
    riskReady: bool,
    riskBlocked: bool,
    entrySignal: bool,
    exitSignal: bool,
    brokerReady: bool,
    edge: Option<real>,
    cost: Option<real>)

  datatype Inputs = Inputs(
    technical: Option<Technical>,
    pattern: Option<Pattern>,
    ai: Option<Ai>,
    sentiment: Option<Sentiment>,
    readiness: Option<TradeReadiness>,
    position: real)

  datatype Warning =
    | TechnicalIncomplete | TimeframesMixed | ReversalElevated | TechnicalVolatilityHigh
    | PatternIncomplete | PatternChoppy | PatternRangeBound | PatternReversal
    | AiUnavailable | AiAbstains | AiWantsConfirmation | AiLowConfidence | AiChoppy | AiVolatile | AiReversal
    | SentimentIncomplete | SentimentHype | SentimentPanic
    | ReadinessUnavailable | RuntimeInactive | HistoryShort | RiskBlocks | BrokerNotReady | EdgeBelowCost

  datatype Weights = Weights(technical: real, pattern: real, ai: real, sentiment: real, readiness: real)

  const DEFAULT_WEIGHTS := Weights(0.30, 0.18, 0.28, 0.14, 0.10)

  datatype Fused = Fused(
    signal: FinalSignal,
    confidence: int,
    edge: Option<real>,
    horizon: Horizon,
    grade: RiskGrade,
    alignment: int,
    warnings: seq<Warning>)

  function Unit(x: real): real {
    Clamp(-1.0, 1.0, x)
  }

  function DirectionScore(trend: P.Trend): real {
    match trend
    case Bullish => 1.0
    case Bearish => -1.0
    case Sideways => 0.0
  }

  /** A magnitude with the sign of a direction. */
  function Signed(trend: P.Trend, x: real): real {
    match trend
    case Bullish => x
    case Bearish => -x
    case Sideways => 0.0
  }

  function OrZero(x: Option<int>): int {
    if x.Some? then x.value else 0
  }

  /** One tag under a condition. */
  function If(condition: bool, w: Warning): seq<Warning> {
    if condition then [w] else []
  }

  // ----- what each scorer computes, in closed form -----

  predicate TechnicalUsable(t: Option<Technical>) {
    t.Some? && t.value.ready && t.value.trend.Some?
  }

  predicate Aligned(a: Agreement) {
    a.BullishAlignment? || a.BearishAlignment?
  }

  function BreakoutTilt(t: Technical): real {
    if !t.breakout.High? then 0.0
    else match t.bias
      case Upside => 0.10
      case Downside => -0.10
      case NoBias => 0.0
  }

  function TechnicalScore(t: Option<Technical>): real {
    if !TechnicalUsable(t) then 0.0
    else
      var raw := Signed(t.value.trend.value, OrZero(t.value.strength) as real / 100.0);
      var agreed := if Aligned(t.value.agreement) then raw * 1.10 else if t.value.agreement.Mixed? then raw * 0.65 else raw;
      var tilted := agreed + BreakoutTilt(t.value);
      Unit(if t.value.reversal.High? then tilted * 0.60 else tilted)
  }

  function TechnicalWarnings(t: Option<Technical>): seq<Warning> {
    if !TechnicalUsable(t) then [TechnicalIncomplete]
    else
      If(t.value.agreement.Mixed?, TimeframesMixed) + If(t.value.reversal.High?, ReversalElevated)
      + If(t.value.volatility.High?, TechnicalVolatilityHigh)
  }

  predicate PatternUsable(p: Option<Pattern>) {
    p.Some? && p.value.ready && p.value.direction.Some?
  }

  function PatternScore(p: Option<Pattern>): real {
    if !PatternUsable(p) then 0.0
    else
      var drift := if p.value.netReturn.None? then 0.0 else Clamp(-0.20, 0.20, p.value.netReturn.value / 20.0);
      var raw := Signed(p.value.direction.value, 0.75) + drift;
      Unit(
        if p.value.character == Some(F.Persistent) then raw * 1.10
        else if p.value.character == Some(F.Choppy) then raw * 0.55
        else raw)
  }

  function PatternWarnings(p: Option<Pattern>): seq<Warning> {
    if !PatternUsable(p) then [PatternIncomplete]
    else
      If(p.value.character == Some(F.Choppy), PatternChoppy) + If(p.value.rangeBound, PatternRangeBound)
      + If(p.value.reversalElevated, PatternReversal)
  }

  predicate Unstable(r: AiRegime) {
    r.Choppy? || r.HighVolatilityUnstable?
  }

  function Damped(x: real, on: bool, factor: real): real {
    if on then x * factor else x
  }

  function Cautious(x: real, a: Ai): real {
    Damped(Damped(Damped(x, a.abstain, 0.30), a.confirmationNeeded, 0.60), a.lowConfidence, 0.65)
  }

  function Tempered(x: real, a: Ai): real {
    Unit(Damped(Cautious(x, a), Unstable(a.regime), 0.45))
  }

  function Lean(a: Ai): real {
    Signed(a.bias, a.confidence as real / 100.0)
  }

  function AiScore(a: Option<Ai>): real {
    if a.None? then 0.0
    else
      Tempered(Lean(a.value), a.value)
  }

  function AiWarnings(a: Option<Ai>): seq<Warning> {
    if a.None? then [AiUnavailable]
    else
      AiCautions(a.value) + AiRegimeWarnings(a.value.regime)
  }

  function AiCautions(a: Ai): seq<Warning> {
    If(a.abstain, AiAbstains) + If(a.confirmationNeeded, AiWantsConfirmation) + If(a.lowConfidence, AiLowConfidence)
  }

  function AiRegimeWarnings(r: AiRegime): seq<Warning> {
    If(r.Choppy?, AiChoppy) + If(r.HighVolatilityUnstable?, AiVolatile) + If(r.ReversalRisk?, AiReversal)
  }

  predicate SentimentUsable(s: Option<Sentiment>) {
    s.Some? && s.value.ready && s.value.score.Some?
  }

  function Reliance(s: Sentiment): real {
    Max(0.25, OrZero(s.confidence) as real / 100.0)
  }

  function Product(x: real, y: real): real {
    x * y
  }

  function SentimentScore(s: Option<Sentiment>): real {
    if !SentimentUsable(s) then 0.0
    else Unit(Damped(Product(s.value.score.value as real / 100.0, Reliance(s.value)), s.value.stable, 0.80))
  }

  function SentimentWarnings(s: Option<Sentiment>): seq<Warning> {
    if !SentimentUsable(s) then [SentimentIncomplete]
    else If(s.value.riskFlag.Hype?, SentimentHype) + If(s.value.riskFlag.Panic?, SentimentPanic)
  }

  predicate EdgeTooSmall(r: TradeReadiness) {
    r.edge.Some? && r.cost.Some? && r.edge.value <= r.cost.value
  }

  function Points(on: bool, x: real): real {
    if on then x else 0.0
  }

  function ReadinessScore(r: Option<TradeReadiness>): real {
    if r.None? then 0.0
    else
      Unit(RiskPart(r.value) + Points(r.value.entrySignal, 0.20) - Points(r.value.exitSignal, 0.20)
        - Points(EdgeTooSmall(r.value), 0.45))
  }

  function ReadinessWarnings(r: Option<TradeReadiness>): seq<Warning> {
    if r.None? then [ReadinessUnavailable]
    else
      RiskWarnings(r.value) + ExecutionWarnings(r.value)
  }

  function ExecutionWarnings(r: TradeReadiness): seq<Warning> {
    If(!r.brokerReady, BrokerNotReady) + If(EdgeTooSmall(r), EdgeBelowCost)
  }

  function RiskWarnings(r: TradeReadiness): seq<Warning> {
    If(!r.runtimeActive, RuntimeInactive) + If(!r.enoughHistory, HistoryShort) + If(r.riskBlocked, RiskBlocks)
  }

  function RiskPart(r: TradeReadiness): real {
    Points(r.riskReady, 0.45) - Points(r.riskBlocked, 0.50)
  }

  // ----- the scorers as they update their score and warnings -----

  method TechnicalSignal(t: Option<Technical>) returns (score: real, warnings: seq<Warning>)
    ensures score == TechnicalScore(t) && warnings == TechnicalWarnings(t)
  {
    if t.None? || !t.value.ready || t.value.trend.None? {
      return 0.0, [TechnicalIncomplete];
    }
    var v := t.value;
    warnings := [];
    score := DirectionScore(v.trend.value) * (OrZero(v.strength) as real / 100.0);
    if Aligned(v.agreement) {
      score := score * 1.10;
    } else if v.agreement.Mixed? {
      score := score * 0.65;
      warnings := warnings + [TimeframesMixed];
    }
    if v.breakout.High? && v.bias.Upside? {
      score := score + 0.10;
    }
    if v.breakout.High? && v.bias.Downside? {
      score := score - 0.10;
    }
    if v.reversal.High? {
      score := score * 0.60;
      warnings := warnings + [ReversalElevated];
    }
    if v.volatility.High? {
      warnings := warnings + [TechnicalVolatilityHigh];
    }
    score := Unit(score);
  }

  method PatternSignal(p: Option<Pattern>) returns (score: real, warnings: seq<Warning>)
    ensures score == PatternScore(p) && warnings == PatternWarnings(p)
  {
    if p.None? || !p.value.ready || p.value.direction.None? {
      return 0.0, [PatternIncomplete];
    }
    var v := p.value;
    warnings := [];
    score := DirectionScore(v.direction.value) * 0.75;
    if v.netReturn.Some? {
      score := score + Clamp(-0.20, 0.20, v.netReturn.value / 20.0);
    }
    if v.character == Some(F.Persistent) {
      score := score * 1.10;
    } else if v.character == Some(F.Choppy) {
      score := score * 0.55;
      warnings := warnings + [PatternChoppy];
    }
    if v.rangeBound {
      warnings := warnings + [PatternRangeBound];
    }
    if v.reversalElevated {
      warnings := warnings + [PatternReversal];
    }
    score := Unit(score);
  }

  method AiSignal(a: Option<Ai>) returns (score: real, warnings: seq<Warning>)
    ensures score == AiScore(a) && warnings == AiWarnings(a)
  {
    if a.None? {
      return 0.0, [AiUnavailable];
    }
    var v := a.value;
    warnings := [];
    score := DirectionScore(v.bias) * (v.confidence as real / 100.0);
    assert score == Lean(v);
    score, warnings := AiCaution(v, score);
    if Unstable(v.regime) {
      score := score * 0.45;
      warnings := warnings + [if v.regime.Choppy? then AiChoppy else AiVolatile];
    }
    if v.regime.ReversalRisk? {
      warnings := warnings + [AiReversal];
    }
    score := Unit(score);
  }

  method AiCaution(v: Ai, raw: real) returns (score: real, warnings: seq<Warning>)
    ensures score == Cautious(raw, v) && warnings == AiCautions(v)
  {
    score, warnings := raw, [];
    if v.abstain {
      score := score * 0.30;
      warnings := warnings + [AiAbstains];
    }
    if v.confirmationNeeded {
      score := score * 0.60;
      warnings := warnings + [AiWantsConfirmation];
    }
    if v.lowConfidence {
      score := score * 0.65;
      warnings := warnings + [AiLowConfidence];
    }
  }

  method SentimentSignal(s: Option<Sentiment>) returns (score: real, warnings: seq<Warning>)
    ensures score == SentimentScore(s) && warnings == SentimentWarnings(s)
  {
    if s.None? || !s.value.ready || s.value.score.None? {
      return 0.0, [SentimentIncomplete];
    }
    var v := s.value;
    warnings := [];
    score := v.score.value as real / 100.0;
    score := Product(score, Reliance(v));
    if !v.riskFlag.NoFlag? {
      warnings := warnings + [if v.riskFlag.Hype? then SentimentHype else SentimentPanic];
    }
    if v.stable {
      score := score * 0.80;
    }
    score := Unit(score);
  }

  method ReadinessSignal(r: Option<TradeReadiness>) returns (score: real, warnings: seq<Warning>)
    ensures score == ReadinessScore(r) && warnings == ReadinessWarnings(r)
  {
    if r.None? {
      return 0.0, [ReadinessUnavailable];
    }
    var v := r.value;
    score, warnings := RiskReadiness(v);
    if v.entrySignal {
      score := score + 0.20;
    }
    if v.exitSignal {
      score := score - 0.20;
    }
    if !v.brokerReady {
      warnings := warnings + [BrokerNotReady];
    }
    if v.edge.Some? && v.cost.Some? && v.edge.value <= v.cost.value {
      score := score - 0.45;
      warnings := warnings + [EdgeBelowCost];
    }
    score := Unit(score);
  }

  method RiskReadiness(v: TradeReadiness) returns (score: real, warnings: seq<Warning>)
    ensures score == RiskPart(v) && warnings == RiskWarnings(v)
  {
    score, warnings := 0.0, [];
    if !v.runtimeActive {
      warnings := warnings + [RuntimeInactive];
    }
    if !v.enoughHistory {
      warnings := warnings + [HistoryShort];
    }
    if v.riskReady {
      score := score + 0.45;
    }
    if v.riskBlocked {
      score := score - 0.50;
      warnings := warnings + [RiskBlocks];
    }
  }

  // ----- fusing -----

  function Weighted(i: Inputs, w: Weights): real {
    Product(TechnicalScore(i.technical), w.technical) + Product(PatternScore(i.pattern), w.pattern)
    + Product(AiScore(i.ai), w.ai) + Product(SentimentScore(i.sentiment), w.sentiment)
    + Product(ReadinessScore(i.readiness), w.readiness)
  }

  function Normalized(i: Inputs, w: Weights): real {
    Unit(Weighted(i, w))
  }

  function AllWarnings(i: Inputs): seq<Warning> {
    TechnicalWarnings(i.technical) + PatternWarnings(i.pattern) + AiWarnings(i.ai) + SentimentWarnings(i.sentiment)
    + ReadinessWarnings(i.readiness)
  }

  /** `dict.fromkeys`: first occurrences in order. */
  function Dedupe(ws: seq<Warning>): seq<Warning> {
    if ws == [] then []
    else
      var front, last := Dedupe(ws[..|ws| - 1]), ws[|ws| - 1];
      if last in front then front else front + [last]
  }

  function SignalOf(position: real, readiness: Option<TradeReadiness>, score: real, warnings: seq<Warning>)
    : FinalSignal
  {
    if TechnicalVolatilityHigh in warnings || AiVolatile in warnings then ReduceRisk
    else if position > 0.0 && (score <= -0.18 || (readiness.Some? && readiness.value.exitSignal)) then ExitLong
    else if position < 0.0 && score >= 0.18 then ExitShort
    else if readiness.Some? && readiness.value.riskBlocked then Wait
    else if score >= 0.28 then Long
    else if score <= -0.28 then Short
    else Wait
  }

  function One(present: bool): int {
    if present then 1 else 0
  }

  function Available(i: Inputs): int {
    One(i.technical.Some?) + One(i.pattern.Some?) + One(i.ai.Some?) + One(i.sentiment.Some?) + One(i.readiness.Some?)
  }

  function Confidence(i: Inputs, score: real, warnings: seq<Warning>, signal: FinalSignal): int {
    var base := RoundHalfUp(Abs(score) * 70.0) + MinInt(20, Available(i) * 4) - MinInt(35, |warnings| * 6);
    MaxInt(5, MinInt(95, if signal.Wait? || signal.ReduceRisk? then MinInt(base, 58) else base))
  }

  function RiskPoints(i: Inputs, warnings: seq<Warning>): int {
    (if i.technical.Some? && i.technical.value.volatility.High? then 2 else 0)
    + (if i.ai.Some? && (Unstable(i.ai.value.regime) || i.ai.value.regime.ReversalRisk?) then 2 else 0)
    + (if |warnings| >= 3 then 1 else 0)
    + (if i.readiness.Some? && i.readiness.value.riskBlocked then 2 else 0)
  }

  function GradeOf(points: int): RiskGrade {
    if points >= 4 then HighRisk else if points >= 2 then MediumRisk else LowRisk
  }

  function PreferredHorizon(i: Inputs): Horizon {
    if i.ai.Some? && i.ai.value.preferredHorizon.Some? then i.ai.value.preferredHorizon.value
    else if i.technical.Some? && Aligned(i.technical.value.agreement) then FifteenMinutes
    else if i.pattern.Some? && i.pattern.value.character == Some(F.Persistent) then OneHour
    else FiveMinutes
  }

  /** Everything that follows from the score and the warnings. */
  function Advice(i: Inputs, score: real, warnings: seq<Warning>): Fused {
    var signal := SignalOf(i.position, i.readiness, score, warnings);
    Fused(signal, Confidence(i, score, warnings, signal),
      if i.readiness.Some? then i.readiness.value.edge else None, PreferredHorizon(i),
      GradeOf(RiskPoints(i, warnings)), RoundHalfUp(Abs(score) * 100.0), warnings)
  }

  function Fuse(i: Inputs, w: Weights): Fused {
    Advice(i, Normalized(i, w), Dedupe(AllWarnings(i)))
  }

  method BuildFusionSignal(i: Inputs, w: Weights) returns (fused: Fused)
    ensures fused == Fuse(i, w)
  {
    var technical, technicalWarnings := TechnicalSignal(i.technical);
    var pattern, patternWarnings := PatternSignal(i.pattern);
    var ai, aiWarnings := AiSignal(i.ai);
    var sentiment, sentimentWarnings := SentimentSignal(i.sentiment);
    var readiness, readinessWarnings := ReadinessSignal(i.readiness);
    var weighted := Product(technical, w.technical) + Product(pattern, w.pattern) + Product(ai, w.ai)
      + Product(sentiment, w.sentiment) + Product(readiness, w.readiness);
    var warnings := Dedupe(technicalWarnings + patternWarnings + aiWarnings + sentimentWarnings + readinessWarnings);
    fused := Advice(i, Unit(weighted), warnings);
  }

  // ----- the outer clamp -----

  lemma ComponentsAreUnits(i: Inputs)
    ensures -1.0 <= TechnicalScore(i.technical) <= 1.0 && -1.0 <= PatternScore(i.pattern) <= 1.0
    ensures -1.0 <= AiScore(i.ai) <= 1.0 && -1.0 <= SentimentScore(i.sentiment) <= 1.0
    ensures -1.0 <= ReadinessScore(i.readiness) <= 1.0
  {
  }

  lemma WeightedMean(a: real, b: real, c: real, d: real, e: real)
    requires -1.0 <= a <= 1.0 && -1.0 <= b <= 1.0 && -1.0 <= c <= 1.0 && -1.0 <= d <= 1.0 && -1.0 <= e <= 1.0
    ensures -1.0 <= a * 0.30 + b * 0.18 + c * 0.28 + d * 0.14 + e * 0.10 <= 1.0
  {
  }

  /** With the default weights, which total one, the outer clamp never acts. */
  lemma OuterClampIsIdle(i: Inputs)
    ensures Normalized(i, DEFAULT_WEIGHTS) == Weighted(i, DEFAULT_WEIGHTS)
  {
    ComponentsAreUnits(i);
    WeightedMean(TechnicalScore(i.technical), PatternScore(i.pattern), AiScore(i.ai), SentimentScore(i.sentiment),
      ReadinessScore(i.readiness));
  }

  // ----- the mirrored market -----

  function MirrorTrend(t: P.Trend): P.Trend {
    match t
    case Bullish => P.Trend.Bearish
    case Bearish => P.Trend.Bullish
    case Sideways => P.Trend.Sideways
  }

  function MirrorTechnical(t: Technical): Technical {
    t.(trend := if t.trend.None? then None else Some(MirrorTrend(t.trend.value)),
       agreement := match t.agreement
         case BullishAlignment => BearishAlignment
         case BearishAlignment => BullishAlignment
         case _ => t.agreement,
       bias := match t.bias
         case Upside => P.Downside
         case Downside => P.Upside
         case NoBias => P.NoBias)
  }

  function MirrorPattern(p: Pattern): Pattern {
    p.(direction := if p.direction.None? then None else Some(MirrorTrend(p.direction.value)),
       netReturn := if p.netReturn.None? then None else Some(-p.netReturn.value))
  }

  function MirrorAi(a: Ai): Ai {
    a.(bias := MirrorTrend(a.bias))
  }

  function MirrorSentiment(s: Sentiment): Sentiment {
    s.(score := if s.score.None? then None else Some(-s.score.value))
  }

  /** Every direction turned around; readiness has none. */
  function Mirror(i: Inputs): Inputs {
    Inputs(
      if i.technical.None? then None else Some(MirrorTechnical(i.technical.value)),
      if i.pattern.None? then None else Some(MirrorPattern(i.pattern.value)),
      if i.ai.None? then None else Some(MirrorAi(i.ai.value)),
      if i.sentiment.None? then None else Some(MirrorSentiment(i.sentiment.value)),
      i.readiness,
      -i.position)
  }

  function MirrorSignal(s: FinalSignal): FinalSignal {
    match s
    case Long => Short
    case Short => Long
    case ExitLong => ExitShort
    case ExitShort => ExitLong
    case _ => s
  }

  lemma MirrorIsInvolution(i: Inputs)
    ensures Mirror(Mirror(i)) == i
  {
    var m := Mirror(Mirror(i));
    if i.technical.Some? {
      TechnicalInvolution(i.technical.value);
    }
    assert m.technical == i.technical;
    if i.pattern.Some? {
      PatternInvolution(i.pattern.value);
    }
    assert m.pattern == i.pattern;
    assert m.ai == i.ai && m.sentiment == i.sentiment && m.position == i.position;
  }

  lemma TechnicalInvolution(t: Technical)
    ensures MirrorTechnical(MirrorTechnical(t)) == t
  {
  }

  lemma PatternInvolution(p: Pattern)
    ensures MirrorPattern(MirrorPattern(p)) == p
  {
    if p.netReturn.Some? {
      assert -(-p.netReturn.value) == p.netReturn.value;
    }
  }

  lemma SignedMirrors(t: P.Trend, x: real)
    ensures Signed(MirrorTrend(t), x) == -Signed(t, x)
  {
  }

  lemma TechnicalMirrors(t: Technical)
    ensures TechnicalScore(Some(MirrorTechnical(t))) == -TechnicalScore(Some(t))
    ensures TechnicalWarnings(Some(MirrorTechnical(t))) == TechnicalWarnings(Some(t))
  {
    if t.trend.Some? {
      SignedMirrors(t.trend.value, OrZero(t.strength) as real / 100.0);
    }
  }

  lemma PatternMirrors(p: Pattern)
    ensures PatternScore(Some(MirrorPattern(p))) == -PatternScore(Some(p))
    ensures PatternWarnings(Some(MirrorPattern(p))) == PatternWarnings(Some(p))
  {
    if p.direction.Some? {
      SignedMirrors(p.direction.value, 0.75);
    }
  }

  lemma AiMirrors(a: Ai)
    ensures AiScore(Some(MirrorAi(a))) == -AiScore(Some(a))
    ensures AiWarnings(Some(MirrorAi(a))) == AiWarnings(Some(a))
  {
    AiScoreMirrors(a);
  }

  lemma AiScoreMirrors(a: Ai)
    ensures AiScore(Some(MirrorAi(a))) == -AiScore(Some(a))
  {
    LeanMirrors(a);
    TemperedMirrors(Lean(a), a);
  }

  lemma LeanMirrors(a: Ai)
    ensures Lean(MirrorAi(a)) == -Lean(a)
  {
  }

  lemma TemperedMirrors(x: real, a: Ai)
    ensures Tempered(-x, MirrorAi(a)) == -Tempered(x, a)
  {
    CautiousMirrors(x, a);
  }

  lemma CautiousMirrors(x: real, a: Ai)
    ensures Cautious(-x, MirrorAi(a)) == -Cautious(x, a)
  {
  }

  lemma SentimentMirrors(s: Sentiment)
    ensures SentimentScore(Some(MirrorSentiment(s))) == -SentimentScore(Some(s))
    ensures SentimentWarnings(Some(MirrorSentiment(s))) == SentimentWarnings(Some(s))
  {
    if s.score.Some? {
      var x := s.score.value as real / 100.0;
      assert Product(-x, Reliance(s)) == -Product(x, Reliance(s));
    }
  }

  /** The directional components negate; the warnings stay. */
  lemma ComponentsMirror(i: Inputs)
    ensures var m := Mirror(i);
      && TechnicalScore(m.technical) == -TechnicalScore(i.technical)
      && PatternScore(m.pattern) == -PatternScore(i.pattern)
      && AiScore(m.ai) == -AiScore(i.ai)
      && SentimentScore(m.sentiment) == -SentimentScore(i.sentiment)
      && AllWarnings(m) == AllWarnings(i)
  {
    if i.technical.Some? {
      TechnicalMirrors(i.technical.value);
    }
    if i.pattern.Some? {
      PatternMirrors(i.pattern.value);
    }
    if i.ai.Some? {
      AiMirrors(i.ai.value);
    }
    if i.sentiment.Some? {
      SentimentMirrors(i.sentiment.value);
    }
  }

  /** Mirroring the market negates the fused score exactly when readiness contributes nothing. */
  lemma ScoreMirrors(i: Inputs)
    ensures Normalized(Mirror(i), DEFAULT_WEIGHTS) == -Normalized(i, DEFAULT_WEIGHTS)
            <==> ReadinessScore(i.readiness) == 0.0
  {
    ComponentsMirror(i);
    OuterClampIsIdle(i);
    OuterClampIsIdle(Mirror(i));
  }

  predicate NoExitSignal(i: Inputs) {
    i.readiness.Some? ==> !i.readiness.value.exitSignal
  }

  lemma SignalMirrors(position: real, readiness: Option<TradeReadiness>, score: real, warnings: seq<Warning>)
    requires readiness.Some? ==> !readiness.value.exitSignal
    ensures SignalOf(-position, readiness, -score, warnings)
         == MirrorSignal(SignalOf(position, readiness, score, warnings))
  {
  }

  /** ... and then, without an exit signal, long and short and the two exits trade places while confidence,
      alignment, risk grade, horizon and warnings stay. */
  lemma FusionMirrors(i: Inputs)
    requires ReadinessScore(i.readiness) == 0.0 && NoExitSignal(i)
    ensures var a, b := Fuse(i, DEFAULT_WEIGHTS), Fuse(Mirror(i), DEFAULT_WEIGHTS);
      b == a.(signal := MirrorSignal(a.signal))
  {
    ScoreMirrors(i);
    ComponentsMirror(i);
    AdviceMirrors(i, Normalized(i, DEFAULT_WEIGHTS), Dedupe(AllWarnings(i)));
  }

  lemma ContextMirrors(i: Inputs, warnings: seq<Warning>)
    ensures Available(Mirror(i)) == Available(i) && RiskPoints(Mirror(i), warnings) == RiskPoints(i, warnings)
    ensures PreferredHorizon(Mirror(i)) == PreferredHorizon(i)
  {
  }

  lemma AdviceMirrors(i: Inputs, score: real, warnings: seq<Warning>)
    requires NoExitSignal(i)
    ensures Advice(Mirror(i), -score, warnings)
         == Advice(i, score, warnings).(signal := MirrorSignal(Advice(i, score, warnings).signal))
  {
    ContextMirrors(i, warnings);
    SignalMirrors(i.position, i.readiness, score, warnings);
    assert Abs(-score) == Abs(score);
  }

  // ----- safety -----

  /** A risk block never opens a position, whatever the weights. */
  lemma RiskBlockNeverOpens(i: Inputs, w: Weights)
    requires i.readiness.Some? && i.readiness.value.riskBlocked
    ensures !Fuse(i, w).signal.Long? && !Fuse(i, w).signal.Short?
    ensures Fuse(i, w).grade != LowRisk
  {
  }

  /** A position is never reversed in one step. */
  lemma NeverReversesPosition(i: Inputs, w: Weights)
    ensures i.position < 0.0 ==> !Fuse(i, w).signal.Long?
    ensures i.position > 0.0 ==> !Fuse(i, w).signal.Short?
  {
  }

  lemma {:induction false} DedupeKeepsMembers(ws: seq<Warning>, w: Warning)
    ensures w in Dedupe(ws) <==> w in ws
  {
    if ws != [] {
      DedupeKeepsMembers(ws[..|ws| - 1], w);
      assert ws == ws[..|ws| - 1] + [ws[|ws| - 1]];
    }
  }

  /** The advice is to reduce risk exactly when a usable technical view or the advisory model reports high
      volatility, and it is never graded low. */
  lemma ReduceRiskMeansVolatile(i: Inputs, w: Weights)
    ensures Fuse(i, w).signal.ReduceRisk? <==>
      (TechnicalUsable(i.technical) && i.technical.value.volatility.High?)
      || (i.ai.Some? && i.ai.value.regime.HighVolatilityUnstable?)
    ensures Fuse(i, w).signal.ReduceRisk? ==> Fuse(i, w).grade != LowRisk
  {
    DedupeKeepsMembers(AllWarnings(i), TechnicalVolatilityHigh);
    DedupeKeepsMembers(AllWarnings(i), AiVolatile);
    VolatileTags(i);
  }

  lemma VolatileTags(i: Inputs)
    ensures TechnicalVolatilityHigh in AllWarnings(i) <==>
      TechnicalUsable(i.technical) && i.technical.value.volatility.High?
    ensures AiVolatile in AllWarnings(i) <==> i.ai.Some? && i.ai.value.regime.HighVolatilityUnstable?
  {
  }

  /** Confidence stays within its limits and low for advice not to act. */
  lemma ConfidenceLimits(i: Inputs, w: Weights)
    ensures var r := Fuse(i, w);
      && 5 <= r.confidence <= 95
      && (r.signal.Wait? || r.signal.ReduceRisk? ==> r.confidence <= 58)
      && 0 <= r.alignment <= 100
  {
    var score := Normalized(i, w);
    RoundHalfUpFacts(Abs(score) * 100.0, 100.0);
    RoundHalfUpFacts(0.0, Abs(score) * 100.0);
    assert RoundHalfUp(100.0) == 100 && RoundHalfUp(0.0) == 0;
  }

  // ----- the warnings never repeat -----

  /** The order in which the scorers can raise the tags. */
  function Rank(w: Warning): nat {
    match w
    case TechnicalIncomplete => 0
    case TimeframesMixed => 1
    case ReversalElevated => 2
    case TechnicalVolatilityHigh => 3
    case PatternIncomplete => 4
    case PatternChoppy => 5
    case PatternRangeBound => 6
    case PatternReversal => 7
    case AiUnavailable => 8
    case AiAbstains => 9
    case AiWantsConfirmation => 10
    case AiLowConfidence => 11
    case AiChoppy => 12
    case AiVolatile => 13
    case AiReversal => 14
    case SentimentIncomplete => 15
    case SentimentHype => 16
    case SentimentPanic => 17
    case ReadinessUnavailable => 18
    case RuntimeInactive => 19
    case HistoryShort => 20
    case RiskBlocks => 21
    case BrokerNotReady => 22
    case EdgeBelowCost => 23
  }

  /** Tags in rising rank, from `lo` on and below `hi`. */
  ghost predicate Rising(ws: seq<Warning>, lo: nat, hi: nat) {
    && (forall i :: 0 <= i < |ws| ==> lo <= Rank(ws[i]) < hi)
    && (forall i, j :: 0 <= i < j < |ws| ==> Rank(ws[i]) < Rank(ws[j]))
  }

  lemma RisingJoin(xs: seq<Warning>, ys: seq<Warning>, lo: nat, mid: nat, hi: nat)
    requires Rising(xs, lo, mid) && Rising(ys, mid, hi) && lo <= mid <= hi
    ensures Rising(xs + ys, lo, hi)
  {
  }

  lemma RisingIf(condition: bool, w: Warning, lo: nat, hi: nat)
    requires lo <= Rank(w) < hi
    ensures Rising(If(condition, w), lo, hi)
  {
  }

  lemma RisingThree(p: bool, u: Warning, q: bool, v: Warning, r: bool, w: Warning)
    requires Rank(u) < Rank(v) < Rank(w)
    ensures Rising(If(p, u) + If(q, v) + If(r, w), Rank(u), Rank(w) + 1)
  {
    RisingIf(p, u, Rank(u), Rank(v));
    RisingIf(q, v, Rank(v), Rank(w));
    RisingIf(r, w, Rank(w), Rank(w) + 1);
    RisingJoin(If(p, u), If(q, v), Rank(u), Rank(v), Rank(w));
    RisingJoin(If(p, u) + If(q, v), If(r, w), Rank(u), Rank(w), Rank(w) + 1);
  }

  lemma TechnicalRises(t: Option<Technical>)
    ensures Rising(TechnicalWarnings(t), 0, 4)
  {
    if TechnicalUsable(t) {
      RisingThree(t.value.agreement.Mixed?, TimeframesMixed, t.value.reversal.High?, ReversalElevated,
        t.value.volatility.High?, TechnicalVolatilityHigh);
    }
  }

  lemma PatternRises(p: Option<Pattern>)
    ensures Rising(PatternWarnings(p), 4, 8)
  {
    if PatternUsable(p) {
      RisingThree(p.value.character == Some(F.Choppy), PatternChoppy, p.value.rangeBound, PatternRangeBound,
        p.value.reversalElevated, PatternReversal);
    }
  }

  lemma CautionsRise(a: Ai)
    ensures Rising(AiCautions(a), 9, 12)
  {
    RisingThree(a.abstain, AiAbstains, a.confirmationNeeded, AiWantsConfirmation, a.lowConfidence, AiLowConfidence);
  }

  lemma RegimeRises(r: AiRegime)
    ensures Rising(AiRegimeWarnings(r), 12, 15)
  {
    RisingThree(r.Choppy?, AiChoppy, r.HighVolatilityUnstable?, AiVolatile, r.ReversalRisk?, AiReversal);
  }

  lemma RisingWidens(ws: seq<Warning>, lo: nat, hi: nat, below: nat)
    requires Rising(ws, lo, hi) && below <= lo
    ensures Rising(ws, below, hi)
  {
  }

  lemma AiRises(a: Option<Ai>)
    ensures Rising(AiWarnings(a), 8, 15)
  {
    if a.Some? {
      CautionsRise(a.value);
      RegimeRises(a.value.regime);
      RisingWidens(AiCautions(a.value), 9, 12, 8);
      RisingJoin(AiCautions(a.value), AiRegimeWarnings(a.value.regime), 8, 12, 15);
    }
  }

  lemma SentimentRises(s: Option<Sentiment>)
    ensures Rising(SentimentWarnings(s), 15, 18)
  {
    if SentimentUsable(s) {
      RisingJoin(If(s.value.riskFlag.Hype?, SentimentHype), If(s.value.riskFlag.Panic?, SentimentPanic), 16, 17, 18);
    }
  }

  lemma RiskRises(r: TradeReadiness)
    ensures Rising(RiskWarnings(r), 19, 22)
  {
    RisingThree(!r.runtimeActive, RuntimeInactive, !r.enoughHistory, HistoryShort, r.riskBlocked, RiskBlocks);
  }

  lemma ExecutionRises(r: TradeReadiness)
    ensures Rising(ExecutionWarnings(r), 22, 24)
  {
    RisingJoin(If(!r.brokerReady, BrokerNotReady), If(EdgeTooSmall(r), EdgeBelowCost), 22, 23, 24);
  }

  lemma ReadinessRises(r: Option<TradeReadiness>)
    ensures Rising(ReadinessWarnings(r), 18, 24)
  {
    if r.Some? {
      RiskRises(r.value);
      ExecutionRises(r.value);
      RisingWidens(RiskWarnings(r.value), 19, 22, 18);
      RisingJoin(RiskWarnings(r.value), ExecutionWarnings(r.value), 18, 22, 24);
    }
  }

  lemma LastIsNew(ws: seq<Warning>, lo: nat, hi: nat)
    requires ws != [] && Rising(ws, lo, hi)
    ensures ws[|ws| - 1] !in ws[..|ws| - 1]
  {
    forall k | 0 <= k < |ws| - 1
      ensures ws[k] != ws[|ws| - 1]
    {
      assert Rank(ws[k]) < Rank(ws[|ws| - 1]);
    }
  }

  lemma {:induction false} RisingNeedsNoDedupe(ws: seq<Warning>, lo: nat, hi: nat)
    requires Rising(ws, lo, hi)
    ensures Dedupe(ws) == ws
  {
    if ws != [] {
      RisingNeedsNoDedupe(ws[..|ws| - 1], lo, hi);
      LastIsNew(ws, lo, hi);
    }
  }

  /** No tag is ever raised twice, so removing duplicates changes nothing and the warning count that lowers
      confidence counts distinct warnings. */
  lemma WarningsNeverRepeat(i: Inputs, w: Weights)
    ensures Fuse(i, w).warnings == AllWarnings(i)
  {
    var a, b, c := TechnicalWarnings(i.technical), PatternWarnings(i.pattern), AiWarnings(i.ai);
    var d, e := SentimentWarnings(i.sentiment), ReadinessWarnings(i.readiness);
    TechnicalRises(i.technical);
    PatternRises(i.pattern);
    AiRises(i.ai);
    SentimentRises(i.sentiment);
    ReadinessRises(i.readiness);
    RisingJoin(a, b, 0, 4, 8);
    RisingJoin(a + b, c, 0, 8, 15);
    RisingJoin(a + b + c, d, 0, 15, 18);
    RisingJoin(a + b + c + d, e, 0, 18, 24);
    RisingNeedsNoDedupe(AllWarnings(i), 0, 24);
  }

  // ----- what each input contributes -----

  predicate Interior(x: real) {
    -1.0 < x < 1.0
  }

  /** The technical score is the signed strength; agreement multiplies it by 1.10 and disagreement by 0.65, a
      high breakout readiness shifts it by 0.10 towards its bias, and a high reversal risk takes the result
      down to 0.60, each whatever the other flags say and up to the limits of one. */
  lemma TechnicalEffects(t: Technical)
    requires t.ready && t.trend.Some?
    ensures TechnicalBase(t) && AgreementEffect(t) && BreakoutEffect(t.(reversal := P.Low)) && ReversalEffect(t)
  {
    PlainTechnical(t);
    AgreementCounts(t);
    BreakoutCounts(t.(reversal := P.Low));
    ReversalCounts(t);
  }

  lemma PlainTechnical(t: Technical)
    requires t.ready && t.trend.Some?
    ensures TechnicalBase(t)
  {
  }

  lemma AgreementCounts(t: Technical)
    requires t.ready && t.trend.Some?
    ensures AgreementEffect(t)
  {
  }

  lemma BreakoutCounts(t: Technical)
    requires t.ready && t.trend.Some? && t.reversal.Low?
    ensures BreakoutEffect(t)
  {
  }

  lemma ReversalCounts(t: Technical)
    requires t.ready && t.trend.Some?
    ensures ReversalEffect(t)
  {
  }

  /** The technical view without any modifier. */
  function Plain(t: Technical): Technical {
    t.(agreement := NoAgreement, breakout := P.Low, reversal := P.Low)
  }

  predicate TechnicalBase(t: Technical)
    requires t.trend.Some?
  {
    var score := TechnicalScore(Some(Plain(t)));
    && (t.strength.None? ==> score == 0.0)
    && (t.strength.Some? && 0 <= t.strength.value <= 100 ==>
          100.0 * score == match t.trend.value
            case Bullish => t.strength.value as real
            case Bearish => -t.strength.value as real
            case Sideways => 0.0)
  }

  predicate AgreementEffect(t: Technical) {
    var score := TechnicalScore(Some(Plain(t)));
    Interior(score) ==>
      && TechnicalScore(Some(Plain(t).(agreement := BullishAlignment))) == Unit(1.10 * score)
      && TechnicalScore(Some(Plain(t).(agreement := BearishAlignment))) == Unit(1.10 * score)
      && TechnicalScore(Some(Plain(t).(agreement := Mixed))) == 0.65 * score
  }

  predicate BreakoutEffect(t: Technical) {
    var without := TechnicalScore(Some(t.(breakout := P.Low)));
    && (Interior(without) ==>
          && TechnicalScore(Some(t.(breakout := P.Readiness.High, bias := P.Upside))) == Unit(without + 0.10)
          && TechnicalScore(Some(t.(breakout := P.Readiness.High, bias := P.Downside))) == Unit(without - 0.10))
    && (!t.breakout.High? || t.bias.NoBias? ==> TechnicalScore(Some(t)) == without)
  }

  predicate ReversalEffect(t: Technical) {
    var calm := TechnicalScore(Some(t.(reversal := P.Low)));
    && (Interior(calm) ==> TechnicalScore(Some(t.(reversal := P.Readiness.High))) == 0.60 * calm)
    && (!t.reversal.High? ==> TechnicalScore(Some(t)) == calm)
  }

  /** The pattern score is three quarters of the direction, moved by a twentieth of the net return but at most
      0.20, times 1.10 for a persistent and 0.55 for a choppy trend. */
  lemma PatternEffects(p: Pattern)
    requires p.ready && p.direction.Some?
    ensures var still := PatternScore(Some(p.(character := None, netReturn := None)));
      still == match p.direction.value case Bullish => 0.75 case Bearish => -0.75 case Sideways => 0.0
    ensures p.netReturn.Some? ==>
      var still := PatternScore(Some(p.(character := None, netReturn := None)));
      var moved := PatternScore(Some(p.(character := None)));
      && (-4.0 <= p.netReturn.value <= 4.0 ==> 20.0 * (moved - still) == p.netReturn.value)
      && (p.netReturn.value > 4.0 ==> moved - still == 0.20) && (p.netReturn.value < -4.0 ==> moved - still == -0.20)
    ensures var plain := PatternScore(Some(p.(character := None)));
      PatternScore(Some(p)) == match p.character
        case Some(Persistent) => Unit(1.10 * plain)
        case Some(Choppy) => 0.55 * plain
        case _ => plain
  {
  }

  /** The advisory score is the signed confidence; abstaining leaves 0.30 of it, a wanted confirmation 0.60,
      low confidence 0.65 and an unstable regime 0.45, each independently of the others. */
  lemma AiEffects(a: Ai)
    requires 0 <= a.confidence <= 100
    ensures var sure := a.(abstain := false, confirmationNeeded := false, lowConfidence := false, regime := Calm);
      100.0 * AiScore(Some(sure)) == match a.bias
        case Bullish => a.confidence as real
        case Bearish => -a.confidence as real
        case Sideways => 0.0
    ensures AiScore(Some(a.(abstain := true))) == 0.30 * AiScore(Some(a.(abstain := false)))
    ensures AiScore(Some(a.(confirmationNeeded := true))) == 0.60 * AiScore(Some(a.(confirmationNeeded := false)))
    ensures AiScore(Some(a.(lowConfidence := true))) == 0.65 * AiScore(Some(a.(lowConfidence := false)))
    ensures AiScore(Some(a)) ==
      (if a.regime.Choppy? || a.regime.HighVolatilityUnstable? then 0.45 else 1.0) * AiScore(Some(a.(regime := Calm)))
  {
    AiScoreUnclamped(a);
    AiScoreUnclamped(a.(abstain := false, confirmationNeeded := false, lowConfidence := false, regime := Calm));
    AiScoreUnclamped(a.(regime := Calm));
    AbstainingCounts(a);
    ConfirmationCounts(a);
    LowConfidenceCounts(a);
  }

  lemma AbstainingCounts(a: Ai)
    requires 0 <= a.confidence <= 100
    ensures AiScore(Some(a.(abstain := true))) == 0.30 * AiScore(Some(a.(abstain := false)))
  {
    AiScoreUnclamped(a.(abstain := true));
    AiScoreUnclamped(a.(abstain := false));
  }

  lemma ConfirmationCounts(a: Ai)
    requires 0 <= a.confidence <= 100
    ensures AiScore(Some(a.(confirmationNeeded := true))) == 0.60 * AiScore(Some(a.(confirmationNeeded := false)))
  {
    AiScoreUnclamped(a.(confirmationNeeded := true));
    AiScoreUnclamped(a.(confirmationNeeded := false));
  }

  lemma LowConfidenceCounts(a: Ai)
    requires 0 <= a.confidence <= 100
    ensures AiScore(Some(a.(lowConfidence := true))) == 0.65 * AiScore(Some(a.(lowConfidence := false)))
  {
    AiScoreUnclamped(a.(lowConfidence := true));
    AiScoreUnclamped(a.(lowConfidence := false));
  }

  lemma AiScoreUnclamped(a: Ai)
    requires 0 <= a.confidence <= 100
    ensures AiScore(Some(a)) == Damped(Cautious(Lean(a), a), Unstable(a.regime), 0.45)
    ensures -1.0 <= Lean(a) <= 1.0 && -1.0 <= Cautious(Lean(a), a) <= 1.0
  {
    CautiousShrinks(Lean(a), a);
  }

  lemma CautiousShrinks(x: real, a: Ai)
    requires -1.0 <= x <= 1.0
    ensures -1.0 <= Cautious(x, a) <= 1.0
    ensures Tempered(x, a) == Damped(Cautious(x, a), Unstable(a.regime), 0.45)
  {
  }

  /** The sentiment score is the proxy score weighted by its confidence, which counts as at least a quarter; a
      stable mood leaves 0.80 of it. */
  lemma SentimentEffects(s: Sentiment)
    requires s.ready && s.score.Some? && -100 <= s.score.value <= 100
    requires s.confidence.Some? ==> s.confidence.value <= 100
    ensures var x, moving := s.score.value as real / 100.0, SentimentScore(Some(s.(stable := false)));
      && (s.confidence.None? || s.confidence.value <= 25 ==> 4.0 * moving == x)
      && (s.confidence.Some? && s.confidence.value >= 25 ==> 100.0 * moving == s.confidence.value as real * x)
    ensures SentimentScore(Some(s.(stable := true))) == 0.80 * SentimentScore(Some(s.(stable := false)))
  {
    var x, k := s.score.value as real / 100.0, Reliance(s);
    assert 0.25 <= k <= 1.0 && -1.0 <= x <= 1.0;
    UnitProduct(x, k);
    if s.confidence.Some? && s.confidence.value >= 25 {
      assert 100.0 * k == s.confidence.value as real;
      assert 100.0 * Product(x, k) == (100.0 * k) * x;
    } else {
      assert Product(x, k) == x * 0.25;
    }
  }

  lemma UnitProduct(x: real, k: real)
    requires -1.0 <= x <= 1.0 && 0.0 <= k <= 1.0
    ensures -1.0 <= Product(x, k) <= 1.0
  {
    NonNegativeProduct(1.0 - x, k);
    NonNegativeProduct(1.0 + x, k);
  }

  lemma NonNegativeProduct(x: real, y: real)
    requires x >= 0.0 && y >= 0.0
    ensures x * y >= 0.0
  {
  }

  /** Readiness moves by 0.45 for passed risk checks, -0.50 for a block, 0.20 for an entry signal, -0.20 for an
      exit signal and -0.45 for an edge that does not clear the costs, each up to the limits of one. */
  lemma ReadinessEffects(r: TradeReadiness)
    ensures ReadinessScore(Some(r.(riskReady := false, riskBlocked := false, entrySignal := false, exitSignal := false,
      edge := None))) == 0.0
    ensures Moves(r.(riskReady := false), r.(riskReady := true), 0.45)
    ensures Moves(r.(riskBlocked := false), r.(riskBlocked := true), -0.50)
    ensures Moves(r.(entrySignal := false), r.(entrySignal := true), 0.20)
    ensures Moves(r.(exitSignal := false), r.(exitSignal := true), -0.20)
    ensures Moves(r.(edge := None), r, if r.edge.Some? && r.cost.Some? && r.edge.value <= r.cost.value then -0.45 else 0.0)
  {
    RiskMoves(r);
    SignalMoves(r);
    EdgeMoves(r);
  }

  lemma RiskMoves(r: TradeReadiness)
    ensures Moves(r.(riskReady := false), r.(riskReady := true), 0.45)
    ensures Moves(r.(riskBlocked := false), r.(riskBlocked := true), -0.50)
  {
  }

  lemma SignalMoves(r: TradeReadiness)
    ensures Moves(r.(entrySignal := false), r.(entrySignal := true), 0.20)
    ensures Moves(r.(exitSignal := false), r.(exitSignal := true), -0.20)
  {
  }

  lemma EdgeMoves(r: TradeReadiness)
    ensures Moves(r.(edge := None), r, if r.edge.Some? && r.cost.Some? && r.edge.value <= r.cost.value then -0.45 else 0.0)
  {
  }

  predicate Moves(off: TradeReadiness, on: TradeReadiness, x: real) {
    Interior(ReadinessScore(Some(off))) ==> ReadinessScore(Some(on)) == Unit(ReadinessScore(Some(off)) + x)
  }

  const NO_VIEWS := Inputs(None, None, None, None, None, 0.0)

  /** The default score of several views is the sum of what each would score alone, in any combination: the
      technical view weighs 30 percent, the pattern 18, the model 28, sentiment 14 and readiness 10. */
  lemma ViewsAddUp(i: Inputs)
    ensures Alone(i) == Alone(NO_VIEWS.(technical := i.technical)) + Alone(NO_VIEWS.(pattern := i.pattern))
      + Alone(NO_VIEWS.(ai := i.ai)) + Alone(NO_VIEWS.(sentiment := i.sentiment))
      + Alone(NO_VIEWS.(readiness := i.readiness))
  {
    TogetherWeigh(i);
    TechnicalAlone(i.technical);
    PatternAlone(i.pattern);
    AiAlone(i.ai);
    SentimentAlone(i.sentiment);
    ReadinessAlone(i.readiness);
  }

  lemma TogetherWeigh(i: Inputs)
    ensures Alone(i) == 0.30 * TechnicalScore(i.technical) + 0.18 * PatternScore(i.pattern) + 0.28 * AiScore(i.ai)
      + 0.14 * SentimentScore(i.sentiment) + 0.10 * ReadinessScore(i.readiness)
  {
    OuterClampIsIdle(i);
  }

  /** A view that is missing or unusable scores nothing. */
  lemma UnusableIsSilent(i: Inputs)
    ensures i.technical.None? || !i.technical.value.ready || i.technical.value.trend.None? ==> TechnicalScore(i.technical) == 0.0
    ensures i.pattern.None? || !i.pattern.value.ready || i.pattern.value.direction.None? ==> PatternScore(i.pattern) == 0.0
    ensures i.sentiment.None? || !i.sentiment.value.ready || i.sentiment.value.score.None? ==> SentimentScore(i.sentiment) == 0.0
    ensures i.ai.None? ==> AiScore(i.ai) == 0.0
    ensures i.readiness.None? ==> ReadinessScore(i.readiness) == 0.0
  {
  }

  lemma SilentViews()
    ensures TechnicalScore(None) == 0.0 && PatternScore(None) == 0.0 && AiScore(None) == 0.0
    ensures SentimentScore(None) == 0.0 && ReadinessScore(None) == 0.0
  {
  }

  lemma TechnicalAlone(t: Option<Technical>)
    ensures Alone(NO_VIEWS.(technical := t)) == 0.30 * TechnicalScore(t)
  {
    TogetherWeigh(NO_VIEWS.(technical := t));
    SilentViews();
  }

  lemma PatternAlone(p: Option<Pattern>)
    ensures Alone(NO_VIEWS.(pattern := p)) == 0.18 * PatternScore(p)
  {
    TogetherWeigh(NO_VIEWS.(pattern := p));
    SilentViews();
  }

  lemma AiAlone(a: Option<Ai>)
    ensures Alone(NO_VIEWS.(ai := a)) == 0.28 * AiScore(a)
  {
    TogetherWeigh(NO_VIEWS.(ai := a));
    SilentViews();
  }

  lemma SentimentAlone(s: Option<Sentiment>)
    ensures Alone(NO_VIEWS.(sentiment := s)) == 0.14 * SentimentScore(s)
  {
    TogetherWeigh(NO_VIEWS.(sentiment := s));
    SilentViews();
  }

  lemma ReadinessAlone(r: Option<TradeReadiness>)
    ensures Alone(NO_VIEWS.(readiness := r)) == 0.10 * ReadinessScore(r)
  {
    TogetherWeigh(NO_VIEWS.(readiness := r));
    SilentViews();
  }

  function Alone(i: Inputs): real {
    Normalized(i, DEFAULT_WEIGHTS)
  }

  // ----- what the advice depends on -----

  /** High volatility reported by a usable technical view or by the advisory model. */
  predicate Volatile(i: Inputs) {
    || (TechnicalUsable(i.technical) && i.technical.value.volatility.High?)
    || (i.ai.Some? && i.ai.value.regime.HighVolatilityUnstable?)
  }

  predicate Exiting(i: Inputs) {
    i.readiness.Some? && i.readiness.value.exitSignal
  }

  predicate Blocked(i: Inputs) {
    i.readiness.Some? && i.readiness.value.riskBlocked
  }

  /** Each piece of advice has its exact condition over the inputs and the fused score. */
  lemma AdviceIsExact(i: Inputs, w: Weights)
    ensures var signal, score := Fuse(i, w).signal, Normalized(i, w);
      && (signal.ReduceRisk? <==> Volatile(i))
      && (signal.ExitLong? <==> !Volatile(i) && i.position > 0.0 && (score <= -0.18 || Exiting(i)))
      && (signal.ExitShort? <==> !Volatile(i) && i.position < 0.0 && score >= 0.18)
      && (signal.Long? <==>
          !Volatile(i) && !Blocked(i) && score >= 0.28 && i.position >= 0.0 && (i.position > 0.0 ==> !Exiting(i)))
      && (signal.Short? <==> !Volatile(i) && !Blocked(i) && score <= -0.28 && i.position <= 0.0)
      && (signal.Wait? <==>
          && !Volatile(i)
          && (i.position > 0.0 ==> score > -0.18 && !Exiting(i) && (Blocked(i) || score < 0.28))
          && (i.position < 0.0 ==> score < 0.18 && (Blocked(i) || score > -0.28))
          && (i.position == 0.0 ==> Blocked(i) || -0.28 < score < 0.28))
  {
    ReduceRiskMeansVolatile(i, w);
  }

  /** An active exit signal always gets a long position out, or at least reduced. */
  lemma ExitSignalIsHeeded(i: Inputs, w: Weights)
    requires i.position > 0.0 && Exiting(i)
    ensures Fuse(i, w).signal == (if Volatile(i) then ReduceRisk else ExitLong)
  {
    AdviceIsExact(i, w);
  }

  /** Whether the technical view, strong enough for its agreement and breakout, could open a position by itself. */
  predicate StrongAlone(t: Technical, strength: int, ahead: P.Bias) {
    var helped := t.breakout.High? && t.bias == ahead;
    var hindered := t.breakout.High? && !t.bias.NoBias? && t.bias != ahead;
    && !t.reversal.High?
    && match t.agreement
      case Mixed => false
      case NoAgreement => !hindered && strength >= if helped then 84 else 94
      case _ => strength >= if helped then 76 else if hindered then 94 else 85
  }

  /** With the default weights and no position, the technical view alone opens one exactly if it is strong. */
  lemma TechnicalOpensAlone(t: Technical, strength: int)
    requires TechnicalUsable(Some(t)) && t.strength == Some(strength) && 0 <= strength <= 100
    ensures var signal := Fuse(NO_VIEWS.(technical := Some(t)), DEFAULT_WEIGHTS).signal;
      && (signal.Long? <==> !t.volatility.High? && t.trend.value.Bullish? && StrongAlone(t, strength, P.Upside))
      && (signal.Short? <==> !t.volatility.High? && t.trend.value.Bearish? && StrongAlone(t, strength, P.Downside))
  {
    TechnicalAlone(Some(t));
    AdviceIsExact(NO_VIEWS.(technical := Some(t)), DEFAULT_WEIGHTS);
    TechnicalReaches(t, strength);
  }

  /** ... the advisory model exactly if it is fully confident and unqualified ... */
  lemma AiOpensAlone(a: Ai)
    requires 0 <= a.confidence <= 100
    ensures var signal := Fuse(NO_VIEWS.(ai := Some(a)), DEFAULT_WEIGHTS).signal;
      signal.Long? || signal.Short? <==>
        && a.confidence == 100 && !a.bias.Sideways? && !a.abstain && !a.confirmationNeeded && !a.lowConfidence
        && !a.regime.Choppy? && !a.regime.HighVolatilityUnstable?
  {
    AiAlone(Some(a));
    AdviceIsExact(NO_VIEWS.(ai := Some(a)), DEFAULT_WEIGHTS);
    AiReaches(a);
  }

  /** ... and the other three never. */
  lemma OthersNeverOpenAlone(p: Option<Pattern>, s: Option<Sentiment>, r: Option<TradeReadiness>)
    ensures Fuse(NO_VIEWS.(pattern := p), DEFAULT_WEIGHTS).signal.Wait?
    ensures Fuse(NO_VIEWS.(sentiment := s), DEFAULT_WEIGHTS).signal.Wait?
    ensures Fuse(NO_VIEWS.(readiness := r), DEFAULT_WEIGHTS).signal.Wait?
  {
    PatternAlone(p);
    SentimentAlone(s);
    ReadinessAlone(r);
    ComponentsAreUnits(Inputs(None, p, None, s, r, 0.0));
    AdviceIsExact(NO_VIEWS.(pattern := p), DEFAULT_WEIGHTS);
    AdviceIsExact(NO_VIEWS.(sentiment := s), DEFAULT_WEIGHTS);
    AdviceIsExact(NO_VIEWS.(readiness := r), DEFAULT_WEIGHTS);
  }

  lemma TechnicalReaches(t: Technical, strength: int)
    requires TechnicalUsable(Some(t)) && t.strength == Some(strength) && 0 <= strength <= 100
    ensures 30.0 * TechnicalScore(Some(t)) >= 28.0 <==> t.trend.value.Bullish? && StrongAlone(t, strength, P.Upside)
    ensures 30.0 * TechnicalScore(Some(t)) <= -28.0 <==> t.trend.value.Bearish? && StrongAlone(t, strength, P.Downside)
  {
  }

  lemma AiReaches(a: Ai)
    requires 0 <= a.confidence <= 100
    ensures 28.0 * AiScore(Some(a)) >= 28.0 || 28.0 * AiScore(Some(a)) <= -28.0 <==>
      && a.confidence == 100 && !a.bias.Sideways? && !a.abstain && !a.confirmationNeeded && !a.lowConfidence
      && !a.regime.Choppy? && !a.regime.HighVolatilityUnstable?
  {
    assert -1.0 <= Lean(a) <= 1.0;
    CautiousShrinks(Lean(a), a);
  }

  /** The grade counts three dangers: a volatile technical view, an unstable or reversing advisory regime, and a
      risk block. Two of them are high risk and one is medium; the number of warnings never decides. */
  lemma GradeCountsDangers(i: Inputs, w: Weights)
    ensures var technical := i.technical.Some? && i.technical.value.volatility.High?;
      var regime := i.ai.Some? && !i.ai.value.regime.Calm? && !i.ai.value.regime.BreakoutBuilding?;
      var grade := Fuse(i, w).grade;
      && (grade.LowRisk? <==> !technical && !regime && !Blocked(i))
      && (grade.HighRisk? <==> (technical && regime) || (technical && Blocked(i)) || (regime && Blocked(i)))
  {
  }

  /** Confidence and alignment over the inputs: 0.70 points per percent of the score, four for each view, six
      less for each raised warning up to 35; neither the limit on the views nor the removal of duplicates
      ever acts. */
  lemma ConfidenceIsExact(i: Inputs, w: Weights)
    ensures var views := (if i.technical.Some? then 4 else 0) + (if i.pattern.Some? then 4 else 0)
        + (if i.ai.Some? then 4 else 0) + (if i.sentiment.Some? then 4 else 0) + (if i.readiness.Some? then 4 else 0);
      var raised, score, fused := |AllWarnings(i)|, Abs(Normalized(i, w)), Fuse(i, w);
      var base := RoundHalfUp(score * 70.0) + views - (if raised <= 5 then 6 * raised else 35);
      && fused.alignment == RoundHalfUp(score * 100.0)
      && fused.confidence ==
         (if base <= 5 then 5
          else if (fused.signal.Wait? || fused.signal.ReduceRisk?) && base > 58 then 58
          else if base > 95 then 95 else base)
  {
    WarningsNeverRepeat(i, w);
    FuseReports(i, w);
    ConfidenceOf(i, Normalized(i, w), AllWarnings(i), Fuse(i, w).signal);
  }

  lemma ConfidenceOf(i: Inputs, score: real, warnings: seq<Warning>, signal: FinalSignal)
    ensures var views := (if i.technical.Some? then 4 else 0) + (if i.pattern.Some? then 4 else 0)
        + (if i.ai.Some? then 4 else 0) + (if i.sentiment.Some? then 4 else 0) + (if i.readiness.Some? then 4 else 0);
      var base := RoundHalfUp(Abs(score) * 70.0) + views - (if |warnings| <= 5 then 6 * |warnings| else 35);
      Confidence(i, score, warnings, signal) ==
         (if base <= 5 then 5
          else if (signal.Wait? || signal.ReduceRisk?) && base > 58 then 58
          else if base > 95 then 95 else base)
  {
  }

  lemma FuseReports(i: Inputs, w: Weights)
    ensures var fused, score := Fuse(i, w), Normalized(i, w);
      && fused.alignment == RoundHalfUp(Abs(score) * 100.0)
      && fused.confidence == Confidence(i, score, fused.warnings, fused.signal)
  {
  }

  /** The advisory model chooses the horizon if it has one; otherwise aligned timeframes mean fifteen minutes
      and a persistent pattern without them an hour. The expected edge is passed through. */
  lemma HorizonIsExact(i: Inputs, w: Weights)
    ensures var fused := Fuse(i, w);
      var asked := if i.ai.Some? then i.ai.value.preferredHorizon else None;
      var aligned := i.technical.Some? && !i.technical.value.agreement.Mixed? && !i.technical.value.agreement.NoAgreement?;
      var persistent := i.pattern.Some? && i.pattern.value.character == Some(F.Persistent);
      && (asked.Some? ==> fused.horizon == asked.value)
      && (asked.None? ==> (fused.horizon.FifteenMinutes? <==> aligned) && (fused.horizon.OneHour? <==> !aligned && persistent))
      && (i.readiness.Some? ==> fused.edge == i.readiness.value.edge) && (i.readiness.None? ==> fused.edge.None?)
  {
  }

  /** Every warning of the fused advice says exactly one thing about the inputs. */
  lemma WarningsAreExact(i: Inputs, w: Weights)
    ensures var raised := Fuse(i, w).warnings;
      && TechnicalTags(i.technical, raised) && PatternTags(i.pattern, raised) && AiTags(i.ai, raised)
      && SentimentTags(i.sentiment, raised) && ReadinessTags(i.readiness, raised)
  {
    WarningsNeverRepeat(i, w);
    TagsKeepApart(i);
    TechnicalRaises(i.technical);
    SameTechnicalTags(i.technical, TechnicalWarnings(i.technical), AllWarnings(i));
    PatternRaises(i.pattern);
    SamePatternTags(i.pattern, PatternWarnings(i.pattern), AllWarnings(i));
    AiRaises(i.ai);
    SameAiTags(i.ai, AiWarnings(i.ai), AllWarnings(i));
    SentimentRaises(i.sentiment);
    SameSentimentTags(i.sentiment, SentimentWarnings(i.sentiment), AllWarnings(i));
    ReadinessRaises(i.readiness);
    SameReadinessTags(i.readiness, ReadinessWarnings(i.readiness), AllWarnings(i));
  }

  /** The two lists raise the same tags of a range of ranks. */
  predicate SameTags(ws: seq<Warning>, ws': seq<Warning>, lo: nat, hi: nat) {
    forall w :: lo <= Rank(w) < hi ==> (w in ws <==> w in ws')
  }

  lemma SameTechnicalTags(t: Option<Technical>, ws: seq<Warning>, ws': seq<Warning>)
    requires TechnicalTags(t, ws) && SameTags(ws, ws', 0, 4)
    ensures TechnicalTags(t, ws')
  {
  }

  lemma SamePatternTags(p: Option<Pattern>, ws: seq<Warning>, ws': seq<Warning>)
    requires PatternTags(p, ws) && SameTags(ws, ws', 4, 8)
    ensures PatternTags(p, ws')
  {
  }

  lemma SameAiTags(a: Option<Ai>, ws: seq<Warning>, ws': seq<Warning>)
    requires AiTags(a, ws) && SameTags(ws, ws', 8, 15)
    ensures AiTags(a, ws')
  {
  }

  lemma SameSentimentTags(s: Option<Sentiment>, ws: seq<Warning>, ws': seq<Warning>)
    requires SentimentTags(s, ws) && SameTags(ws, ws', 15, 18)
    ensures SentimentTags(s, ws')
  {
  }

  lemma SameReadinessTags(r: Option<TradeReadiness>, ws: seq<Warning>, ws': seq<Warning>)
    requires ReadinessTags(r, ws) && SameTags(ws, ws', 18, 24)
    ensures ReadinessTags(r, ws')
  {
  }

  predicate TechnicalTags(t: Option<Technical>, raised: seq<Warning>) {
    var usable := t.Some? && t.value.ready && t.value.trend.Some?;
    && (TechnicalIncomplete in raised <==> !usable)
    && (TimeframesMixed in raised <==> usable && t.value.agreement == Mixed)
    && (ReversalElevated in raised <==> usable && t.value.reversal == P.Readiness.High)
    && (TechnicalVolatilityHigh in raised <==> usable && t.value.volatility == P.Volatility.High)
  }

  predicate PatternTags(p: Option<Pattern>, raised: seq<Warning>) {
    var usable := p.Some? && p.value.ready && p.value.direction.Some?;
    && (PatternIncomplete in raised <==> !usable)
    && (PatternChoppy in raised <==> usable && p.value.character == Some(F.Choppy))
    && (PatternRangeBound in raised <==> usable && p.value.rangeBound)
    && (PatternReversal in raised <==> usable && p.value.reversalElevated)
  }

  predicate AiTags(a: Option<Ai>, raised: seq<Warning>) {
    && (AiUnavailable in raised <==> a.None?)
    && (AiAbstains in raised <==> a.Some? && a.value.abstain)
    && (AiWantsConfirmation in raised <==> a.Some? && a.value.confirmationNeeded)
    && (AiLowConfidence in raised <==> a.Some? && a.value.lowConfidence)
    && (AiChoppy in raised <==> a.Some? && a.value.regime == AiRegime.Choppy)
    && (AiVolatile in raised <==> a.Some? && a.value.regime == HighVolatilityUnstable)
    && (AiReversal in raised <==> a.Some? && a.value.regime == ReversalRisk)
  }

  predicate SentimentTags(s: Option<Sentiment>, raised: seq<Warning>) {
    var usable := s.Some? && s.value.ready && s.value.score.Some?;
    && (SentimentIncomplete in raised <==> !usable)
    && (SentimentHype in raised <==> usable && s.value.riskFlag == Hype)
    && (SentimentPanic in raised <==> usable && s.value.riskFlag == Panic)
  }

  predicate ReadinessTags(r: Option<TradeReadiness>, raised: seq<Warning>) {
    && (ReadinessUnavailable in raised <==> r.None?)
    && (RuntimeInactive in raised <==> r.Some? && !r.value.runtimeActive)
    && (HistoryShort in raised <==> r.Some? && !r.value.enoughHistory)
    && (RiskBlocks in raised <==> r.Some? && r.value.riskBlocked)
    && (BrokerNotReady in raised <==> r.Some? && !r.value.brokerReady)
    && (EdgeBelowCost in raised <==>
        r.Some? && r.value.edge.Some? && r.value.cost.Some? && r.value.edge.value <= r.value.cost.value)
  }

  lemma TechnicalRaises(t: Option<Technical>)
    ensures TechnicalTags(t, TechnicalWarnings(t))
  {
  }

  lemma PatternRaises(p: Option<Pattern>)
    ensures PatternTags(p, PatternWarnings(p))
  {
  }

  lemma AiRaises(a: Option<Ai>)
    ensures AiTags(a, AiWarnings(a))
  {
    if a.Some? {
      var v := a.value;
      ThreeRaise(v.abstain, AiAbstains, v.confirmationNeeded, AiWantsConfirmation, v.lowConfidence, AiLowConfidence);
      ThreeRaise(v.regime.Choppy?, AiChoppy, v.regime.HighVolatilityUnstable?, AiVolatile, v.regime.ReversalRisk?,
        AiReversal);
    }
  }

  lemma ThreeRaise(p: bool, u: Warning, q: bool, v: Warning, r: bool, w: Warning)
    ensures forall x :: x in If(p, u) + If(q, v) + If(r, w) <==> (p && x == u) || (q && x == v) || (r && x == w)
  {
    forall x
      ensures x in If(p, u) + If(q, v) + If(r, w) <==> (p && x == u) || (q && x == v) || (r && x == w)
    {
      IfRaises(p, u, x);
      IfRaises(q, v, x);
      IfRaises(r, w, x);
    }
  }

  lemma IfRaises(condition: bool, w: Warning, x: Warning)
    ensures x in If(condition, w) <==> condition && x == w
  {
  }

  lemma SentimentRaises(s: Option<Sentiment>)
    ensures SentimentTags(s, SentimentWarnings(s))
  {
  }

  lemma ReadinessRaises(r: Option<TradeReadiness>)
    ensures ReadinessTags(r, ReadinessWarnings(r))
  {
  }

  /** Each scorer raises tags of its own range of ranks only. */
  lemma TagsKeepApart(i: Inputs)
    ensures var all := AllWarnings(i);
      && SameTags(TechnicalWarnings(i.technical), all, 0, 4) && SameTags(PatternWarnings(i.pattern), all, 4, 8)
      && SameTags(AiWarnings(i.ai), all, 8, 15) && SameTags(SentimentWarnings(i.sentiment), all, 15, 18)
      && SameTags(ReadinessWarnings(i.readiness), all, 18, 24)
  {
    forall w
      ensures w in AllWarnings(i) <==> RaisedBy(i, w)
    {
      RaisedOnce(i, w);
    }
  }

  /** The tag is among those of the scorer its rank belongs to. */
  predicate RaisedBy(i: Inputs, w: Warning) {
    if Rank(w) < 4 then w in TechnicalWarnings(i.technical)
    else if Rank(w) < 8 then w in PatternWarnings(i.pattern)
    else if Rank(w) < 15 then w in AiWarnings(i.ai)
    else if Rank(w) < 18 then w in SentimentWarnings(i.sentiment)
    else w in ReadinessWarnings(i.readiness)
  }

  lemma RaisedOnce(i: Inputs, w: Warning)
    ensures w in AllWarnings(i) <==> RaisedBy(i, w)
  {
    TechnicalRises(i.technical);
    PatternRises(i.pattern);
    AiRises(i.ai);
    SentimentRises(i.sentiment);
    ReadinessRises(i.readiness);
    OutOfRange(TechnicalWarnings(i.technical), 0, 4, w);
    OutOfRange(PatternWarnings(i.pattern), 4, 8, w);
    OutOfRange(AiWarnings(i.ai), 8, 15, w);
    OutOfRange(SentimentWarnings(i.sentiment), 15, 18, w);
    OutOfRange(ReadinessWarnings(i.readiness), 18, 24, w);
    SomeListHas(TechnicalWarnings(i.technical), PatternWarnings(i.pattern), AiWarnings(i.ai),
      SentimentWarnings(i.sentiment), ReadinessWarnings(i.readiness), w);
  }

  lemma OutOfRange(ws: seq<Warning>, lo: nat, hi: nat, w: Warning)
    requires Rising(ws, lo, hi)
    ensures w in ws ==> lo <= Rank(w) < hi
  {
  }

  lemma SomeListHas(a: seq<Warning>, b: seq<Warning>, c: seq<Warning>, d: seq<Warning>, e: seq<Warning>, w: Warning)
    ensures w in a + b + c + d + e <==> w in a || w in b || w in c || w in d || w in e
  {
  }
}
