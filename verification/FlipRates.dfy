/** How often a price series changes direction, counted three times over: `trend_character` of
    app/analysis/range_behavior.py, `_direction_flip_rate` of app/analysis/regime.py, and
    `_direction_flip_rate` with `_momentum_persistence` of app/ai/features.py. */
module FlipRates {
  import opened Prelude

  datatype Character = Persistent | Balanced | Choppy

  function Sign(x: real): int {
    if x > 0.0 then 1 else if x < 0.0 then -1 else 0
  }

  // ----- the reference: the non-zero directions of a price series -----

  function Moves(prices: seq<real>): seq<int> {
    if |prices| <= 1 then []
    else
      var n := |prices| - 1;
      Directional(Moves(prices[..n]), Sign(prices[n] - prices[n - 1]))
  }

  /** Appends a direction unless it is flat. */
  function Directional(moves: seq<int>, sign: int): seq<int> {
    if sign == 0 then moves else moves + [sign]
  }

  function Same(moves: seq<int>): nat {
    if |moves| <= 1 then 0
    else
      var n := |moves| - 1;
      Same(moves[..n]) + if moves[n] == moves[n - 1] then 1 else 0
  }

  function Flips(moves: seq<int>): nat {
    if |moves| <= 1 then 0
    else
      var n := |moves| - 1;
      Flips(moves[..n]) + if moves[n] != moves[n - 1] then 1 else 0
  }

  function FlipRate(moves: seq<int>): real
    requires |moves| >= 2
  {
    Flips(moves) as real / (|moves| - 1) as real
  }

  // ----- range_behavior.py -----

  /** The return from one price to the next. */
  function Return(): (real, real) -> real {
    (previous, current) => if previous == 0.0 then 0.0 else (current - previous) / previous
  }

  /** Close-to-close returns; a pair that starts at or below zero is skipped. */
  function ReturnsBy(change: (real, real) -> real, prices: seq<real>): seq<real> {
    if |prices| <= 1 then []
    else
      var n := |prices| - 1;
      var before := ReturnsBy(change, prices[..n]);
      if prices[n - 1] <= 0.0 then before else before + [change(prices[n - 1], prices[n])]
  }

  function Returns(prices: seq<real>): seq<real> {
    ReturnsBy(Return(), prices)
  }

  function SignsOf(rs: seq<real>): seq<int> {
    if rs == [] then []
    else
      var n := |rs| - 1;
      Directional(SignsOf(rs[..n]), Sign(rs[n]))
  }

  function Classified(same: nat, pairs: nat): Character {
    if pairs == 0 then Balanced
    else if same as real / pairs as real >= 0.65 then Persistent
    else if same as real / pairs as real <= 0.4 then Choppy
    else Balanced
  }

  method CollectReturns(prices: seq<real>) returns (rs: seq<real>)
    ensures rs == Returns(prices)
  {
    rs := [];
    var i := 1;
    while i < |prices|
      invariant 1 <= i && (|prices| >= 1 ==> i <= |prices|)
      invariant |prices| >= 1 ==> rs == Returns(prices[..i])
      invariant |prices| == 0 ==> rs == []
    {
      assert prices[..i + 1][..i] == prices[..i];
      var previous, current := prices[i - 1], prices[i];
      i := i + 1;
      if previous <= 0.0 {
        continue;
      }
      rs := rs + [Return()(previous, current)];
    }
    if |prices| >= 1 {
      assert prices[..i] == prices;
    }
  }

  /** The counters and the last sign after some moves. */
  ghost predicate Tracks(moves: seq<int>, same: nat, pairs: nat, previousSign: int) {
    && same == Same(moves) && pairs == (if moves == [] then 0 else |moves| - 1)
    && previousSign == (if moves == [] then 0 else moves[|moves| - 1])
    && (moves != [] ==> previousSign != 0)
  }

  lemma TracksNext(moves: seq<int>, same: nat, pairs: nat, previousSign: int, sign: int)
    requires Tracks(moves, same, pairs, previousSign) && sign != 0
    ensures Tracks(moves + [sign], if previousSign == sign then same + 1 else same,
      if previousSign != 0 then pairs + 1 else pairs, sign)
  {
    assert (moves + [sign])[..|moves|] == moves;
  }

  lemma SignsOfSnoc(rs: seq<real>, x: real)
    ensures SignsOf(rs + [x]) == Directional(SignsOf(rs), Sign(x))
  {
    assert (rs + [x])[..|rs|] == rs;
  }

  /** One pass with two counters and the last sign seen. */
  method TrendCharacter(prices: seq<real>) returns (character: Option<Character>)
    ensures var moves := SignsOf(Returns(prices));
      character == if Returns(prices) == [] then None
                   else Some(Classified(Same(moves), if moves == [] then 0 else |moves| - 1))
  {
    var rs := CollectReturns(prices);
    if rs == [] {
      return None;
    }
    var same, pairs := 0, 0;
    var previousSign := 0;
    var i := 0;
    while i < |rs|
      invariant 0 <= i <= |rs|
      invariant Tracks(SignsOf(rs[..i]), same, pairs, previousSign)
    {
      var sign := Sign(rs[i]);
      assert rs[..i + 1] == rs[..i] + [rs[i]];
      SignsOfSnoc(rs[..i], rs[i]);
      ghost var moves := SignsOf(rs[..i]);
      i := i + 1;
      if sign == 0 {
        continue;
      }
      TracksNext(moves, same, pairs, previousSign, sign);
      if previousSign != 0 {
        pairs := pairs + 1;
        if previousSign == sign {
          same := same + 1;
        }
      }
      previousSign := sign;
    }
    assert rs[..i] == rs;
    character := Some(Classified(same, pairs));
  }

  // ----- regime.py -----

  function RegimeFlipRate(moves: seq<int>): real {
    if |moves| < 2 then 0.0 else Quantized(FlipRate(moves) * 100.0)
  }

  method Directions(closes: seq<real>) returns (directions: seq<int>)
    ensures Meaningful(directions) == Moves(closes)
  {
    directions := [];
    var i := 1;
    while i < |closes|
      invariant 1 <= i && (|closes| >= 1 ==> i <= |closes|)
      invariant |closes| >= 1 ==> Meaningful(directions) == Moves(closes[..i])
      invariant |closes| == 0 ==> directions == []
    {
      assert closes[..i + 1][..i] == closes[..i];
      ghost var before := directions;
      if closes[i] > closes[i - 1] {
        directions := directions + [1];
      } else if closes[i] < closes[i - 1] {
        directions := directions + [-1];
      } else {
        directions := directions + [0];
      }
      assert directions[..|before|] == before;
      i := i + 1;
    }
    if |closes| >= 1 {
      assert closes[..i] == closes;
    }
  }

  /** The directions that are not flat. */
  function Meaningful(directions: seq<int>): seq<int> {
    if directions == [] then []
    else Directional(Meaningful(directions[..|directions| - 1]), directions[|directions| - 1])
  }

  method RegimeDirectionFlipRate(closes: seq<real>) returns (rate: real)
    ensures rate == RegimeFlipRate(Moves(closes))
  {
    var directions := Directions(closes);
    var meaningful := Meaningful(directions);
    if |meaningful| < 2 {
      return 0.0;
    }
    rate := Quantized(Flips(meaningful) as real / (|meaningful| - 1) as real * 100.0);
  }

  // ----- ai/features.py -----

  /** Candle returns; a zero close counts as no return. */
  function CandleReturnsBy(change: (real, real) -> real, closes: seq<real>): seq<real> {
    if |closes| <= 1 then []
    else
      var n := |closes| - 1;
      CandleReturnsBy(change, closes[..n]) + [change(closes[n - 1], closes[n])]
  }

  function CandleReturns(closes: seq<real>): seq<real> {
    CandleReturnsBy(Return(), closes)
  }

  function FeatureFlipRate(rs: seq<real>): Option<real> {
    var directional := SignsOf(rs);
    if |directional| < 2 then None else Some(FlipRate(directional))
  }

  function Count(moves: seq<int>, sign: int): nat {
    if moves == [] then 0
    else
      var n := |moves| - 1;
      Count(moves[..n], sign) + if moves[n] == sign then 1 else 0
  }

  /** The three counters after some prices. */
  ghost predicate Tally(prices: seq<real>, up: nat, down: nat, flat: nat) {
    && up == Count(Moves(prices), 1) && down == Count(Moves(prices), -1)
    && up + down == |Moves(prices)|
    && up + down + flat == if prices == [] then 0 else |prices| - 1
  }

  lemma TallyNext(prices: seq<real>, x: real, up: nat, down: nat, flat: nat)
    requires prices != [] && Tally(prices, up, down, flat)
    ensures var sign := Sign(x - prices[|prices| - 1]);
      Tally(prices + [x], if sign == 1 then up + 1 else up, if sign == -1 then down + 1 else down,
        if sign == 0 then flat + 1 else flat)
  {
    assert (prices + [x])[..|prices|] == prices;
    CountSnoc(Moves(prices), Sign(x - prices[|prices| - 1]));
  }

  /** Counts of rising, falling and flat pairs. */
  method MoveCounts(prices: seq<real>) returns (up: nat, down: nat, flat: nat)
    ensures up == Count(Moves(prices), 1) && down == Count(Moves(prices), -1)
    ensures up + down == |Moves(prices)|
    ensures up + down + flat == if prices == [] then 0 else |prices| - 1
  {
    up, down, flat := 0, 0, 0;
    if prices == [] {
      return;
    }
    var i := 1;
    assert prices[..i] == [prices[0]];
    while i < |prices|
      invariant 1 <= i <= |prices|
      invariant Tally(prices[..i], up, down, flat)
    {
      TallyNext(prices[..i], prices[i], up, down, flat);
      assert prices[..i + 1] == prices[..i] + [prices[i]];
      up, down, flat := CountMove(prices[i - 1], prices[i], up, down, flat);
      i := i + 1;
    }
    assert prices[..i] == prices;
  }

  method CountMove(previous: real, current: real, up0: nat, down0: nat, flat0: nat)
    returns (up: nat, down: nat, flat: nat)
    ensures var sign := Sign(current - previous);
      && up == (if sign == 1 then up0 + 1 else up0) && down == (if sign == -1 then down0 + 1 else down0)
      && flat == (if sign == 0 then flat0 + 1 else flat0)
  {
    up, down, flat := up0, down0, flat0;
    if current > previous {
      up := up + 1;
    } else if current < previous {
      down := down + 1;
    } else {
      flat := flat + 1;
    }
  }

  lemma CountSnoc(moves: seq<int>, sign: int)
    ensures Count(moves + [sign], 1) == Count(moves, 1) + if sign == 1 then 1 else 0
    ensures Count(moves + [sign], -1) == Count(moves, -1) + if sign == -1 then 1 else 0
  {
    assert (moves + [sign])[..|moves|] == moves;
  }

  predicate RisesAt(prices: seq<real>, i: nat) {
    i + 1 < |prices| && prices[i] < prices[i + 1]
  }

  predicate FallsAt(prices: seq<real>, i: nat) {
    i + 1 < |prices| && prices[i] > prices[i + 1]
  }

  /** The positions whose price is followed by a greater, or by a smaller one. */
  function Rises(prices: seq<real>): set<nat> {
    set i: nat | i < |prices| && RisesAt(prices, i)
  }

  function Falls(prices: seq<real>): set<nat> {
    set i: nat | i < |prices| && FallsAt(prices, i)
  }

  /** The upward moves are the rises of the series and the downward ones its falls, in number. */
  lemma {:induction false} MovesAreSteps(prices: seq<real>)
    ensures Count(Moves(prices), 1) == |Rises(prices)| && Count(Moves(prices), -1) == |Falls(prices)|
  {
    if |prices| > 1 {
      var n := |prices| - 1;
      var front := prices[..n];
      MovesAreSteps(front);
      CountSnoc(Moves(front), Sign(prices[n] - prices[n - 1]));
      MovesSnoc(prices);
      RisesSnoc(prices);
      FallsSnoc(prices);
    } else {
      assert Rises(prices) == {} && Falls(prices) == {};
    }
  }

  lemma MovesSnoc(prices: seq<real>)
    requires |prices| > 1
    ensures var n := |prices| - 1;
      var moves, sign := Moves(prices[..n]), Sign(prices[n] - prices[n - 1]);
      Moves(prices) == if sign == 0 then moves else moves + [sign]
  {
  }

  lemma RisesSnoc(prices: seq<real>)
    requires |prices| > 1
    ensures var n := |prices| - 1;
      |Rises(prices)| == |Rises(prices[..n])| + (if prices[n - 1] < prices[n] then 1 else 0)
  {
    var n := |prices| - 1;
    var front := prices[..n];
    forall i: nat | i < n - 1
      ensures RisesAt(prices, i) == RisesAt(front, i)
    {
    }
    assert Rises(prices) == if prices[n - 1] < prices[n] then Rises(front) + {n - 1} else Rises(front);
  }

  lemma FallsSnoc(prices: seq<real>)
    requires |prices| > 1
    ensures var n := |prices| - 1;
      |Falls(prices)| == |Falls(prices[..n])| + (if prices[n - 1] > prices[n] then 1 else 0)
  {
    var n := |prices| - 1;
    var front := prices[..n];
    forall i: nat | i < n - 1
      ensures FallsAt(prices, i) == FallsAt(front, i)
    {
    }
    assert Falls(prices) == if prices[n - 1] > prices[n] then Falls(front) + {n - 1} else Falls(front);
  }

  /** A return is what the price gained, as a share of where it started; from a zero close there is none. */
  lemma ReturnMeans(previous: real, current: real)
    ensures previous == 0.0 ==> Return()(previous, current) == 0.0
    ensures previous != 0.0 ==> previous * (1.0 + Return()(previous, current)) == current
  {
    if previous != 0.0 {
      assert (current - previous) / previous * previous == current - previous;
    }
  }

  /** The pattern returns skip exactly the pairs that do not start above zero; the feature returns skip none. */
  lemma {:induction false} ReturnsSkip(prices: seq<real>)
    ensures |Returns(prices)| == |set i: nat | i + 1 < |prices| && prices[i] > 0.0|
    ensures |CandleReturns(prices)| == if prices == [] then 0 else |prices| - 1
  {
    var starts := set i: nat | i + 1 < |prices| && prices[i] > 0.0;
    if |prices| > 1 {
      var n := |prices| - 1;
      ReturnsSkip(prices[..n]);
      var before := set i: nat | i + 1 < |prices[..n]| && prices[..n][i] > 0.0;
      assert starts == if prices[n - 1] > 0.0 then before + {n - 1} else before;
    } else {
      assert starts == {};
    }
  }

  /** With fewer than two directions there is no rate to speak of: the trend is balanced, the regime rate zero and
      the feature rate absent; persistence needs three returns, and is zero when none has a direction. */
  lemma FewMoves(prices: seq<real>, rs: seq<real>)
    ensures |Moves(prices)| < 2 ==>
      Classified(Same(Moves(prices)), 0) == Balanced && RegimeFlipRate(Moves(prices)) == 0.0
    ensures FeatureFlipRate(rs).None? <==> |SignsOf(rs)| < 2
    ensures MomentumPersistence(rs).None? <==> |rs| < 3
    ensures |rs| >= 3 && SignsOf(rs) == [] ==> MomentumPersistence(rs) == Some(0.0)
  {
  }

  /** The share of the dominant direction. */
  function MomentumPersistence(rs: seq<real>): Option<real> {
    var moves := SignsOf(rs);
    var up, down := Count(moves, 1), Count(moves, -1);
    if |rs| < 3 then None
    else if up + down == 0 then Some(0.0)
    else Some(Share(MaxInt(up, down), up + down))
  }

  function Share(part: int, whole: int): real
    requires whole > 0
  {
    part as real / whole as real
  }

  // ----- all three read the same moves -----

  ghost predicate Positive(prices: seq<real>) {
    forall i :: 0 <= i < |prices| ==> prices[i] > 0.0
  }

  /** A change that has the sign of the difference. */
  ghost predicate Signed(change: (real, real) -> real, previous: real, current: real) {
    Sign(change(previous, current)) == Sign(current - previous)
  }

  lemma ReturnIsSigned(previous: real, current: real)
    requires previous > 0.0
    ensures Signed(Return(), previous, current)
  {
    var q := (current - previous) / previous;
    assert q * previous == current - previous;
    LessTimes(q, 0.0, previous);
    LessTimes(0.0, q, previous);
  }

  lemma {:induction false} ChangesCarryMoves(change: (real, real) -> real, prices: seq<real>)
    requires Positive(prices) && forall p, c :: p > 0.0 ==> Signed(change, p, c)
    ensures SignsOf(ReturnsBy(change, prices)) == Moves(prices)
    ensures SignsOf(CandleReturnsBy(change, prices)) == Moves(prices)
    ensures |ReturnsBy(change, prices)| == if prices == [] then 0 else |prices| - 1
    ensures |CandleReturnsBy(change, prices)| == if prices == [] then 0 else |prices| - 1
  {
    if |prices| > 1 {
      var n := |prices| - 1;
      var last := change(prices[n - 1], prices[n]);
      ChangesCarryMoves(change, prices[..n]);
      assert Signed(change, prices[n - 1], prices[n]);
      SignsOfSnoc(ReturnsBy(change, prices[..n]), last);
      SignsOfSnoc(CandleReturnsBy(change, prices[..n]), last);
    }
  }

  lemma ReturnsCarryMoves(prices: seq<real>)
    requires Positive(prices)
    ensures SignsOf(Returns(prices)) == SignsOf(CandleReturns(prices)) == Moves(prices)
    ensures |Returns(prices)| == |CandleReturns(prices)| == if prices == [] then 0 else |prices| - 1
  {
    forall p, c | p > 0.0
      ensures Signed(Return(), p, c)
    {
      ReturnIsSigned(p, c);
    }
    ChangesCarryMoves(Return(), prices);
  }

  lemma {:induction false} PairsAreSameOrFlips(moves: seq<int>)
    ensures Same(moves) + Flips(moves) == if moves == [] then 0 else |moves| - 1
  {
    if |moves| > 1 {
      PairsAreSameOrFlips(moves[..|moves| - 1]);
    }
  }

  /** With `same + flips` pairs, the share of one is the complement of the share of the other. */
  lemma Shares(same: nat, flips: nat)
    requires same + flips > 0
    ensures same as real / (same + flips) as real == 1.0 - flips as real / (same + flips) as real
  {
    var n := (same + flips) as real;
    var p, q := same as real / n, flips as real / n;
    assert p * n == same as real && q * n == flips as real;
    Divides(same as real, n, 1.0 - q);
  }

  /** On positive prices the three computations read one sequence of moves: the feature rate is the exact
      flip rate, the regime rate is that in rounded percent, and the trend is choppy from 60% flips on and
      persistent up to 35%. */
  lemma ThreeImplementationsAgree(prices: seq<real>)
    requires Positive(prices) && |Moves(prices)| >= 2
    ensures var moves := Moves(prices);
      && FeatureFlipRate(CandleReturns(prices)) == Some(FlipRate(moves))
      && RegimeFlipRate(moves) == Quantized(FlipRate(moves) * 100.0)
      && SignsOf(Returns(prices)) == moves
      && (Classified(Same(moves), |moves| - 1).Choppy? <==> FlipRate(moves) >= 0.6)
      && (Classified(Same(moves), |moves| - 1).Persistent? <==> FlipRate(moves) <= 0.35)
  {
    ReturnsCarryMoves(prices);
    FeatureRateOfMoves(CandleReturns(prices), Moves(prices));
    RegimeRateOfMoves(Moves(prices));
    ClassifiedByFlipRate(Moves(prices));
  }

  lemma FeatureRateOfMoves(rs: seq<real>, moves: seq<int>)
    requires SignsOf(rs) == moves && |moves| >= 2
    ensures FeatureFlipRate(rs) == Some(FlipRate(moves))
  {
  }

  lemma RegimeRateOfMoves(moves: seq<int>)
    requires |moves| >= 2
    ensures RegimeFlipRate(moves) == Quantized(FlipRate(moves) * 100.0)
  {
  }

  lemma ClassifiedByFlipRate(moves: seq<int>)
    requires |moves| >= 2
    ensures Classified(Same(moves), |moves| - 1).Choppy? <==> FlipRate(moves) >= 0.6
    ensures Classified(Same(moves), |moves| - 1).Persistent? <==> FlipRate(moves) <= 0.35
  {
    PairsAreSameOrFlips(moves);
    Shares(Same(moves), Flips(moves));
    ClassifiedShares(Same(moves), Flips(moves));
  }

  lemma ClassifiedShares(same: nat, flips: nat)
    requires same + flips > 0
    ensures Classified(same, same + flips).Choppy? <==> flips as real / (same + flips) as real >= 0.6
    ensures Classified(same, same + flips).Persistent? <==> flips as real / (same + flips) as real <= 0.35
  {
    Shares(same, flips);
  }

  // ----- rounding and the 45% threshold -----

  lemma QuantizedReaches(x: real)
    requires x >= 0.0
    ensures Quantized(x) >= 45.0 <==> x >= 44.99995
  {
  }

  lemma RateReaches(flips: nat, pairs: nat, bound: real)
    requires pairs > 0
    ensures flips as real / pairs as real >= bound <==> flips as real >= bound * pairs as real
    ensures flips as real / pairs as real >= 0.0
  {
    var q := flips as real / pairs as real;
    assert q * pairs as real == flips as real;
    LessTimes(q, bound, pairs as real);
    LessTimes(q, 0.0, pairs as real);
  }

  /** The regime model calls a market choppy from a rounded 45% on, the advisory noise filter from an exact
      0.45 on. They disagree exactly when the flips fall short by at most one in two million pairs, which
      needs at least a hundred thousand pairs. */
  lemma ThresholdsAgree(moves: seq<int>)
    requires |moves| >= 2
    ensures var flips, pairs := Flips(moves), |moves| - 1;
      && ((RegimeFlipRate(moves) >= 45.0 <==> FlipRate(moves) >= 0.45)
          <==> !(0 < 100000 * (9 * pairs - 20 * flips) <= pairs))
      && (pairs < 100000 ==> (RegimeFlipRate(moves) >= 45.0 <==> FlipRate(moves) >= 0.45))
  {
    ThresholdsOfCounts(Flips(moves), |moves| - 1);
  }

  lemma ThresholdsOfCounts(flips: nat, pairs: nat)
    requires pairs > 0
    ensures var rate := flips as real / pairs as real;
      (Quantized(rate * 100.0) >= 45.0 <==> rate >= 0.45) <==> !(0 < 100000 * (9 * pairs - 20 * flips) <= pairs)
  {
    RateReaches(flips, pairs, 0.45);
    RateReaches(flips, pairs, 0.4499995);
    QuantizedReaches(flips as real / pairs as real * 100.0);
  }

  // ----- persistence against flips -----

  ghost predicate AllDirectional(moves: seq<int>) {
    forall i :: 0 <= i < |moves| ==> moves[i] == 1 || moves[i] == -1
  }

  lemma {:induction false} SignsAreDirectional(rs: seq<real>)
    ensures AllDirectional(SignsOf(rs))
  {
    if rs != [] {
      SignsAreDirectional(rs[..|rs| - 1]);
    }
  }

  /** Every flip touches the minority: there are at most two flips per minority move. */
  lemma {:induction false} FlipsTouchMinority(moves: seq<int>)
    requires AllDirectional(moves)
    ensures Count(moves, 1) + Count(moves, -1) == |moves|
    ensures Flips(moves) <= 2 * Count(moves, 1) - (if moves != [] && moves[|moves| - 1] == 1 then 1 else 0)
    ensures Flips(moves) <= 2 * Count(moves, -1) - (if moves != [] && moves[|moves| - 1] == -1 then 1 else 0)
    ensures Flips(moves) == 0 ==> Count(moves, 1) == 0 || Count(moves, -1) == 0
    ensures moves != [] ==> Count(moves, moves[|moves| - 1]) > 0
  {
    if moves != [] {
      FlipsTouchMinority(moves[..|moves| - 1]);
    }
  }

  /** Full persistence means no flips, and each lost share of persistence allows at most two flips. */
  lemma PersistenceBoundsFlips(rs: seq<real>)
    requires |rs| >= 3 && SignsOf(rs) != []
    ensures var persistence := MomentumPersistence(rs);
      && persistence.Some? && 0.5 <= persistence.value <= 1.0
      && (persistence.value == 1.0 <==> Flips(SignsOf(rs)) == 0)
      && Share(Flips(SignsOf(rs)), |SignsOf(rs)|) <= 2.0 - 2.0 * persistence.value
  {
    var moves := SignsOf(rs);
    var up, down := Count(moves, 1), Count(moves, -1);
    SignsAreDirectional(rs);
    FlipsTouchMinority(moves);
    ShareBounds(up, down, Flips(moves));
    assert MomentumPersistence(rs) == Some(Share(MaxInt(up, down), up + down));
  }

  lemma ShareBounds(up: nat, down: nat, flips: nat)
    requires up + down > 0 && flips <= 2 * up && flips <= 2 * down
    requires flips == 0 ==> up == 0 || down == 0
    ensures var share := Share(MaxInt(up, down), up + down);
      && 0.5 <= share <= 1.0 && (share == 1.0 <==> flips == 0)
      && Share(flips, up + down) <= 2.0 - 2.0 * share
  {
    var n, most := (up + down) as real, MaxInt(up, down) as real;
    DivisionBounds(most, n, 0.5, 1.0);
    FullRatio(most, n);
    FlipBound(flips as real, most, n);
  }

  lemma FullRatio(most: real, n: real)
    requires n > 0.0
    ensures most / n == 1.0 <==> most == n
  {
    var share := most / n;
    assert share * n == most;
  }

  lemma FlipBound(flips: real, most: real, n: real)
    requires n > 0.0 && flips >= 0.0 && flips <= 2.0 * n - 2.0 * most
    ensures flips / n <= 2.0 - 2.0 * (most / n)
  {
    var share := most / n;
    assert share * n == most;
    assert (2.0 - 2.0 * share) * n == 2.0 * n - 2.0 * most;
    DivisionBounds(flips, n, 0.0, 2.0 - 2.0 * share);
  }
}
