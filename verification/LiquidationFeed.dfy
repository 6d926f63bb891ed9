/** The liquidation event feed of app/data/binance_liquidation_feed.py: per-symbol queues pruned only at
    the front, read through a time window. Times are in microseconds. */
module LiquidationFeed {
  import opened Prelude

  datatype Event = Event(symbol: string, eventTime: int, side: string, notional: real)

  /** Everything that touches one symbol's queue: an arrival prunes at its own event time and is
      appended; a query prunes at its reference time. */
  datatype Op = Arrive(e: Event) | Query(now: int) {
    function Reference(): int {
      match this
      case Arrive(e) => e.eventTime
      case Query(now) => now
    }
  }

  function Prune(queue: seq<Event>, cutoff: int): seq<Event> {
    if queue != [] && queue[0].eventTime < cutoff then Prune(queue[1..], cutoff) else queue
  }

  function Queue(ops: seq<Op>, retention: int): seq<Event> {
    if ops == [] then []
    else
      var op := ops[|ops| - 1];
      var pruned := Prune(Queue(ops[..|ops| - 1], retention), op.Reference() - retention);
      if op.Arrive? then pruned + [op.e] else pruned
  }

  /** All events that ever arrived, in arrival order. */
  function History(ops: seq<Op>): seq<Event> {
    if ops == [] then []
    else History(ops[..|ops| - 1]) + (if ops[|ops| - 1].Arrive? then [ops[|ops| - 1].e] else [])
  }

  /** The events of a window, in order. */
  function Window(events: seq<Event>, cutoff: int): seq<Event> {
    if events == [] then []
    else
      var earlier := Window(events[..|events| - 1], cutoff);
      if events[|events| - 1].eventTime >= cutoff then earlier + [events[|events| - 1]] else earlier
  }

  lemma {:induction false} WindowConcat(a: seq<Event>, b: seq<Event>, cutoff: int)
    ensures Window(a + b, cutoff) == Window(a, cutoff) + Window(b, cutoff)
  {
    if b == [] {
      assert a + b == a;
    } else {
      assert (a + b)[..|a + b| - 1] == a + b[..|b| - 1];
      WindowConcat(a, b[..|b| - 1], cutoff);
    }
  }

  lemma {:induction false} WindowOfOld(events: seq<Event>, cutoff: int)
    requires forall i :: 0 <= i < |events| ==> events[i].eventTime < cutoff
    ensures Window(events, cutoff) == []
  {
    if events != [] {
      WindowOfOld(events[..|events| - 1], cutoff);
    }
  }

  /** Pruning removes a prefix of events older than the cutoff and stops at the first that is not. */
  lemma {:induction false} PruneDropsOldPrefix(queue: seq<Event>, cutoff: int)
    ensures var kept := Prune(queue, cutoff);
      var d := |queue| - |kept|;
      && 0 <= d && kept == queue[d..]
      && (forall i :: 0 <= i < d ==> queue[i].eventTime < cutoff)
      && (kept != [] ==> kept[0].eventTime >= cutoff)
  {
    if queue != [] && queue[0].eventTime < cutoff {
      PruneDropsOldPrefix(queue[1..], cutoff);
    }
  }

  ghost predicate OlderThanSomeReference(e: Event, ops: seq<Op>, retention: int) {
    exists k :: 0 <= k < |ops| && e.eventTime < ops[k].Reference() - retention
  }

  /** The queue is always a suffix of the arrival history, and every event it dropped was older than the
      retention at some reference time, even when events arrive out of order. */
  lemma {:induction false} QueueIsSuffixOfHistory(ops: seq<Op>, retention: int)
    ensures var d := |History(ops)| - |Queue(ops, retention)|;
      && 0 <= d && Queue(ops, retention) == History(ops)[d..]
      && (forall i :: 0 <= i < d ==> OlderThanSomeReference(History(ops)[i], ops, retention))
  {
    if ops != [] {
      var prefix, op := ops[..|ops| - 1], ops[|ops| - 1];
      QueueIsSuffixOfHistory(prefix, retention);
      var before, h := Queue(prefix, retention), History(prefix);
      var cutoff := op.Reference() - retention;
      PruneDropsOldPrefix(before, cutoff);
      var d0 := |h| - |before|;
      var d := |h| - |Prune(before, cutoff)|;
      assert Prune(before, cutoff) == h[d..];
      forall i | 0 <= i < d
        ensures OlderThanSomeReference(h[i], ops, retention)
      {
        if i < d0 {
          var k :| 0 <= k < |prefix| && h[i].eventTime < prefix[k].Reference() - retention;
          assert ops[k] == prefix[k];
        } else {
          assert h[i] == before[i - d0];
          assert ops[|ops| - 1].Reference() - retention == cutoff;
        }
      }
    }
  }

  /** Lookback within retention, and no earlier reference time so late that it pruned into the window. */
  predicate WindowSafe(ops: seq<Op>, retention: int, now: int, lookback: int) {
    lookback <= retention && forall k :: 0 <= k < |ops| ==> ops[k].Reference() <= now + (retention - lookback)
  }

  /** Reading the window off the pruned queue equals filtering the whole history. */
  lemma WindowIsExact(ops: seq<Op>, retention: int, now: int, lookback: int)
    requires WindowSafe(ops, retention, now, lookback)
    ensures Window(Queue(ops + [Query(now)], retention), now - lookback) == Window(History(ops), now - lookback)
  {
    var all := ops + [Query(now)];
    assert all[..|ops|] == ops;
    QueueIsSuffixOfHistory(all, retention);
    var h := History(ops);
    assert History(all) == h;
    var d := |h| - |Queue(all, retention)|;
    forall i | 0 <= i < d
      ensures h[i].eventTime < now - lookback
    {
      var k :| 0 <= k < |all| && h[i].eventTime < all[k].Reference() - retention;
    }
    assert h == h[..d] + h[d..];
    WindowConcat(h[..d], h[d..], now - lookback);
    WindowOfOld(h[..d], now - lookback);
  }

  lemma TwoArrivals(a: Event, b: Event, retention: int)
    requires a.eventTime < b.eventTime - retention
    ensures Queue([Arrive(a), Arrive(b)], retention) == [b] && History([Arrive(a), Arrive(b)]) == [a, b]
  {
    assert [Arrive(a), Arrive(b)][..1] == [Arrive(a)] && [Arrive(a)][..0] == [];
    assert Queue([Arrive(a)], retention) == [a];
    assert Prune([a], b.eventTime - retention) == Prune([], b.eventTime - retention);
    assert History([Arrive(a)]) == [a];
  }

  predicate LosesEvents(ops: seq<Op>, retention: int, now: int, lookback: int) {
    Window(Queue(ops + [Query(now)], retention), now - lookback) != Window(History(ops), now - lookback)
  }

  /** The bound on earlier reference times is tight: one arrival a microsecond beyond it loses an event of the window. */
  lemma LateReferenceLosesEvents(retention: int, now: int, lookback: int, late: int, symbol: string)
    requires 0 < lookback <= retention && late > now + (retention - lookback)
    ensures exists ops: seq<Op> :: |ops| == 2 && ops[0].Reference() < ops[1].Reference() == late
              && LosesEvents(ops, retention, now, lookback)
  {
    var a := Event(symbol, now - lookback, "SELL", 1.0);
    var b := Event(symbol, late, "SELL", 1.0);
    var ops := [Arrive(a), Arrive(b)];
    LateArrivalPrunes(a, b, retention, now);
    WindowOfTwo(a, b, now - lookback);
    assert ops[0].Reference() == now - lookback;
  }

  lemma LateArrivalPrunes(a: Event, b: Event, retention: int, now: int)
    requires a.eventTime < b.eventTime - retention && b.eventTime >= now - retention
    ensures var ops := [Arrive(a), Arrive(b)];
      Queue(ops + [Query(now)], retention) == [b] && History(ops) == [a, b]
  {
    var ops := [Arrive(a), Arrive(b)];
    TwoArrivals(a, b, retention);
    assert (ops + [Query(now)])[..2] == ops;
    assert Queue(ops + [Query(now)], retention) == Prune([b], now - retention);
  }

  lemma WindowOfTwo(a: Event, b: Event, cutoff: int)
    requires a.eventTime >= cutoff && b.eventTime >= cutoff
    ensures Window([a, b], cutoff) == [a, b] && Window([b], cutoff) == [b]
  {
    WindowConcat([a], [b], cutoff);
    assert [a] + [b] == [a, b];
  }

  /** So is the bound on the lookback: beyond the retention even a single event is lost. */
  lemma LongLookbackLosesEvents(retention: int, now: int, lookback: int, symbol: string)
    requires 0 < retention < lookback
    ensures exists ops: seq<Op> :: |ops| == 1 && ops[0].Reference() == now - lookback
              && LosesEvents(ops, retention, now, lookback)
  {
    var a := Event(symbol, now - lookback, "SELL", 1.0);
    var ops := [Arrive(a)];
    assert (ops + [Query(now)])[..1] == ops && ops[..0] == [];
    assert Queue(ops, retention) == [a] && History(ops) == [a];
    assert Queue(ops + [Query(now)], retention) == Prune([a], now - retention) == Prune([], now - retention);
    assert Window([a], now - lookback) == [a];
  }

  predicate ReferencesUpTo(ops: seq<Op>, m: int) {
    forall k :: 0 <= k < |ops| ==> ops[k].Reference() <= m
  }

  ghost predicate NeverLoses(retention: int, now: int, lookback: int, m: int) {
    forall ops: seq<Op> :: ReferencesUpTo(ops, m) ==> !LosesEvents(ops, retention, now, lookback)
  }

  /** The exact law: over all histories whose reference times reach at most `m` the window is answered as from
      the whole history if and only if no event of it can have arrived yet, or the lookback is within the
      retention and `m` is late by no more than what is left of it. */
  lemma WindowLaw(retention: int, now: int, lookback: int, m: int)
    requires retention > 0 && lookback > 0
    ensures NeverLoses(retention, now, lookback, m) <==>
      m < now - lookback || (lookback <= retention && m <= now + (retention - lookback))
  {
    if m < now - lookback {
      forall ops: seq<Op> | ReferencesUpTo(ops, m)
        ensures !LosesEvents(ops, retention, now, lookback)
      {
        EarlyHistoryIsOutside(ops, retention, now, lookback);
      }
    } else if lookback > retention {
      LongLookbackLosesEvents(retention, now, lookback, "");
    } else if m > now + (retention - lookback) {
      LateReferenceLosesEvents(retention, now, lookback, m, "");
    } else {
      forall ops: seq<Op> | ReferencesUpTo(ops, m)
        ensures !LosesEvents(ops, retention, now, lookback)
      {
        WindowIsExact(ops, retention, now, lookback);
      }
    }
  }

  lemma {:induction false} HistoryWithinReferences(ops: seq<Op>, m: int)
    requires ReferencesUpTo(ops, m)
    ensures forall i :: 0 <= i < |History(ops)| ==> History(ops)[i].eventTime <= m
  {
    if ops != [] {
      assert ops[|ops| - 1].Reference() <= m;
      HistoryWithinReferences(ops[..|ops| - 1], m);
    }
  }

  /** Events that all came before the window leave it empty, whatever was pruned. */
  lemma EarlyHistoryIsOutside(ops: seq<Op>, retention: int, now: int, lookback: int)
    requires ReferencesUpTo(ops, now - lookback - 1)
    ensures !LosesEvents(ops, retention, now, lookback)
  {
    var all := ops + [Query(now)];
    assert all[..|ops|] == ops;
    HistoryWithinReferences(ops, now - lookback - 1);
    QueueIsSuffixOfHistory(all, retention);
    WindowOfOld(History(ops), now - lookback);
    WindowOfOld(Queue(all, retention), now - lookback);
  }

  // ----- pressure -----

  datatype Side = LongSide | ShortSide | UnknownSide
  datatype Level = Low | Medium | High
  datatype Direction = Longs | Shorts | BalancedFlow | NoFlow

  /** A forced sell liquidates a long position, a forced buy a short one. */
  function LiquidatedSide(orderSide: string): Side {
    if Upper(orderSide) == "SELL" then LongSide else if Upper(orderSide) == "BUY" then ShortSide else UnknownSide
  }

  function Notional(events: seq<Event>, side: Side): real {
    if events == [] then 0.0
    else
      var earlier := Notional(events[..|events| - 1], side);
      if LiquidatedSide(events[|events| - 1].side) == side then earlier + events[|events| - 1].notional else earlier
  }

  function Imbalance(longs: real, shorts: real): real {
    if longs + shorts <= 0.0 then 0.0 else (shorts - longs) / (longs + shorts) * 100.0
  }

  function LevelOf(total: real, imbalance: real): Level {
    if total >= 100000.0 || Abs(imbalance) >= 65.0 then High
    else if total >= 25000.0 || Abs(imbalance) >= 35.0 then Medium
    else Low
  }

  function DirectionOf(longs: real, shorts: real): Direction {
    if longs + shorts <= 0.0 then NoFlow
    else if longs > shorts * 1.25 then Longs
    else if shorts > longs * 1.25 then Shorts
    else BalancedFlow
  }

  datatype Pressure = Pressure(
    symbol: string, timestamp: int, longs: real, shorts: real, imbalance: real,
    level: Level, spike: bool, direction: Direction, count: nat, available: bool)

  function PressureOf(symbol: string, now: int, events: seq<Event>): Pressure {
    var longs, shorts := Notional(events, LongSide), Notional(events, ShortSide);
    var imbalance := Imbalance(longs, shorts);
    var level := LevelOf(longs + shorts, imbalance);
    Pressure(symbol, now, Quantized(longs), Quantized(shorts), Quantized(imbalance), level, level == High,
      DirectionOf(longs, shorts), |events|, events != [])
  }

  /** The same events with every forced order on the other side. */
  function SwapSide(side: string): string {
    if Upper(side) == "SELL" then "BUY" else if Upper(side) == "BUY" then "SELL" else side
  }

  function SwapSides(events: seq<Event>): (swapped: seq<Event>)
    ensures |swapped| == |events|
  {
    if events == [] then []
    else SwapSides(events[..|events| - 1]) + [events[|events| - 1].(side := SwapSide(events[|events| - 1].side))]
  }

  lemma UpperOfSides()
    ensures Upper("SELL") == "SELL" && Upper("BUY") == "BUY"
  {
    assert "SELL"[1..] == "ELL" && "ELL"[1..] == "LL" && "LL"[1..] == "L" && "L"[1..] == "";
    assert Upper("") == "" && Upper("L") == "L" && Upper("LL") == "LL" && Upper("ELL") == "ELL";
    assert "BUY"[1..] == "UY" && "UY"[1..] == "Y" && "Y"[1..] == "";
    assert Upper("Y") == "Y" && Upper("UY") == "UY";
  }

  /** The value one event adds to a side. */
  function Adds(e: Event, side: Side): real {
    if LiquidatedSide(e.side) == side then e.notional else 0.0
  }

  lemma SwapExchangesSides(e: Event)
    ensures Adds(e.(side := SwapSide(e.side)), LongSide) == Adds(e, ShortSide)
    ensures Adds(e.(side := SwapSide(e.side)), ShortSide) == Adds(e, LongSide)
  {
    UpperOfSides();
  }

  lemma NotionalSnoc(events: seq<Event>, e: Event, side: Side)
    ensures Notional(events + [e], side) == Notional(events, side) + Adds(e, side)
  {
    assert (events + [e])[..|events|] == events;
  }

  lemma {:induction false} SwapExchangesNotionals(events: seq<Event>)
    ensures Notional(SwapSides(events), LongSide) == Notional(events, ShortSide)
    ensures Notional(SwapSides(events), ShortSide) == Notional(events, LongSide)
  {
    if events != [] {
      var prefix, e := events[..|events| - 1], events[|events| - 1];
      var swapped := e.(side := SwapSide(e.side));
      SwapExchangesNotionals(prefix);
      SwapExchangesSides(e);
      assert events == prefix + [e] && SwapSides(events) == SwapSides(prefix) + [swapped];
      NotionalSnoc(prefix, e, LongSide);
      NotionalSnoc(prefix, e, ShortSide);
      NotionalSnoc(SwapSides(prefix), swapped, LongSide);
      NotionalSnoc(SwapSides(prefix), swapped, ShortSide);
    }
  }

  lemma {:induction false} NotionalsNonNegative(events: seq<Event>, side: Side)
    requires forall i :: 0 <= i < |events| ==> events[i].notional >= 0.0
    ensures Notional(events, side) >= 0.0
  {
    if events != [] {
      NotionalsNonNegative(events[..|events| - 1], side);
    }
  }

  lemma ImbalanceBounded(longs: real, shorts: real)
    requires longs >= 0.0 && shorts >= 0.0
    ensures -100.0 <= Imbalance(longs, shorts) <= 100.0
    ensures Imbalance(shorts, longs) == -Imbalance(longs, shorts)
  {
    var total := longs + shorts;
    if total > 0.0 {
      var r := (shorts - longs) / total;
      assert r * total == shorts - longs;
      assert -1.0 <= r <= 1.0;
      assert -r * total == longs - shorts;
      Divides(longs - shorts, total, -r);
    }
  }

  lemma QuantizedIsOdd(x: real)
    ensures Quantized(-x) == -Quantized(x)
    ensures -100.0 <= x <= 100.0 ==> -100.0 <= Quantized(x) <= 100.0
  {
    var scaled := x * 10000.0;
    RoundHalfUpFacts(scaled, 1000000.0);
    RoundHalfUpFacts(-1000000.0, scaled);
    assert RoundHalfUp(1000000.0) == 1000000 && RoundHalfUp(-1000000.0) == -1000000;
    assert -x * 10000.0 == -scaled;
  }

  lemma LevelAndDirectionMirror(longs: real, shorts: real, imbalance: real)
    ensures LevelOf(shorts + longs, -imbalance) == LevelOf(longs + shorts, imbalance)
    ensures longs >= 0.0 && shorts >= 0.0 ==> (DirectionOf(longs, shorts) == Longs <==> DirectionOf(shorts, longs) == Shorts)
    ensures DirectionOf(longs, shorts) == NoFlow <==> DirectionOf(shorts, longs) == NoFlow
  {
  }

  /** Pressure is symmetric in the two sides: exchanging them exchanges the notionals and the direction,
      negates the imbalance to the last rounded digit, and changes neither the level, the spike flag nor
      the count; the imbalance is always a percentage. */
  lemma PressureIsSymmetric(symbol: string, now: int, events: seq<Event>)
    requires forall i :: 0 <= i < |events| ==> events[i].notional >= 0.0
    ensures var p, q := PressureOf(symbol, now, events), PressureOf(symbol, now, SwapSides(events));
      && q.longs == p.shorts && q.shorts == p.longs && q.imbalance == -p.imbalance
      && q.level == p.level && q.spike == p.spike && q.count == p.count
      && -100.0 <= p.imbalance <= 100.0
      && (p.direction == Longs <==> q.direction == Shorts)
      && (p.direction == NoFlow <==> q.direction == NoFlow)
  {
    var longs, shorts := Notional(events, LongSide), Notional(events, ShortSide);
    SwapExchangesNotionals(events);
    NotionalsNonNegative(events, LongSide);
    NotionalsNonNegative(events, ShortSide);
    MirrorNumbers(longs, shorts);
  }

  lemma MirrorNumbers(longs: real, shorts: real)
    requires longs >= 0.0 && shorts >= 0.0
    ensures var x := Imbalance(longs, shorts);
      && Quantized(Imbalance(shorts, longs)) == -Quantized(x)
      && -100.0 <= Quantized(x) <= 100.0
      && LevelOf(shorts + longs, Imbalance(shorts, longs)) == LevelOf(longs + shorts, x)
      && (DirectionOf(longs, shorts) == Longs <==> DirectionOf(shorts, longs) == Shorts)
      && (DirectionOf(longs, shorts) == NoFlow <==> DirectionOf(shorts, longs) == NoFlow)
  {
    ImbalanceBounded(longs, shorts);
    QuantizedIsOdd(Imbalance(longs, shorts));
    LevelAndDirectionMirror(longs, shorts, Imbalance(longs, shorts));
  }

  // ----- what the pressure says about the orders -----

  /** The notionals of the events with one kind of forced order, in order. */
  function ValuesOf(events: seq<Event>, order: string): seq<real> {
    if events == [] then []
    else
      var e := events[|events| - 1];
      ValuesOf(events[..|events| - 1], order) + if Upper(e.side) == order then [e.notional] else []
  }

  /** Liquidated longs are the forced sells, liquidated shorts the forced buys. */
  lemma {:induction false} NotionalIsSum(events: seq<Event>)
    ensures Notional(events, LongSide) == Sum(ValuesOf(events, "SELL"))
    ensures Notional(events, ShortSide) == Sum(ValuesOf(events, "BUY"))
  {
    if events != [] {
      var n := |events| - 1;
      NotionalIsSum(events[..n]);
      SumSnoc(ValuesOf(events[..n], "SELL"), events[n].notional);
      SumSnoc(ValuesOf(events[..n], "BUY"), events[n].notional);
    }
  }

  lemma SumSnoc(xs: seq<real>, x: real)
    ensures Sum(xs + [x]) == Sum(xs) + x && xs + [] == xs
  {
    assert (xs + [x])[..|xs|] == xs;
  }

  predicate Near(x: real, y: real) {
    -0.00005 <= x - y <= 0.00005
  }

  lemma QuantizedIsNear(x: real)
    ensures Near(Quantized(x), x)
  {
    RoundHalfUpFacts(x * 10000.0, 0.0);
  }

  /** The direction is long when the forced sells exceed the forced buys by more than a quarter; the level is high
      from a total of 100000 or a side of 82.5% on, medium from 25000 or 67.5% on. */
  lemma PressureMeans(symbol: string, now: int, events: seq<Event>)
    requires forall i :: 0 <= i < |events| ==> events[i].notional >= 0.0
    ensures var p, sells, buys := PressureOf(symbol, now, events), Sum(ValuesOf(events, "SELL")), Sum(ValuesOf(events, "BUY"));
      && p.symbol == symbol && p.timestamp == now && p.count == |events| && (p.available <==> |events| > 0)
      && Near(p.longs, sells) && Near(p.shorts, buys) && Weighs(p, sells, buys)
  {
    NotionalIsSum(events);
    NotionalsNonNegative(events, LongSide);
    NotionalsNonNegative(events, ShortSide);
    var longs, shorts := Notional(events, LongSide), Notional(events, ShortSide);
    QuantizedIsNear(longs);
    QuantizedIsNear(shorts);
    WeighedFlow(PressureOf(symbol, now, events), longs, shorts);
  }

  lemma WeighedFlow(p: Pressure, sells: real, buys: real)
    requires sells >= 0.0 && buys >= 0.0
    requires p.direction == DirectionOf(sells, buys) && p.level == LevelOf(sells + buys, Imbalance(sells, buys))
    requires p.spike == (p.level == High) && p.imbalance == Quantized(Imbalance(sells, buys))
    ensures Weighs(p, sells, buys)
  {
    QuantizedIsNear(Imbalance(sells, buys));
    if sells + buys > 0.0 {
      Shares(sells, buys);
    } else {
      assert RoundHalfUp(0.0) == 0;
    }
  }

  predicate Weighs(p: Pressure, sells: real, buys: real) {
    var total, greater := sells + buys, Max(sells, buys);
    && (p.direction == NoFlow <==> total == 0.0)
    && (p.direction == Longs <==> 4.0 * sells > 5.0 * buys) && (p.direction == Shorts <==> 4.0 * buys > 5.0 * sells)
    && (p.level == High <==> total >= 100000.0 || (total > 0.0 && 1000.0 * greater >= 825.0 * total))
    && (p.level == Low <==> total < 25000.0 && (total > 0.0 ==> 1000.0 * greater < 675.0 * total))
    && (p.spike <==> p.level == High)
    && (total == 0.0 ==> p.imbalance == 0.0)
    && (total > 0.0 ==> Near(p.imbalance, 100.0 * (buys - sells) / total))
  }

  /** The imbalance as a share: its size reaches a limit when the greater side reaches half of the rest. */
  lemma Shares(longs: real, shorts: real)
    requires longs >= 0.0 && shorts >= 0.0 && longs + shorts > 0.0
    ensures var x, total, greater := Imbalance(longs, shorts), longs + shorts, Max(longs, shorts);
      && x == 100.0 * (shorts - longs) / total
      && (Abs(x) >= 65.0 <==> 1000.0 * greater >= 825.0 * total)
      && (Abs(x) >= 35.0 <==> 1000.0 * greater >= 675.0 * total)
  {
    var total := longs + shorts;
    var r := (shorts - longs) / total;
    assert r * total == shorts - longs;
    Divides(100.0 * (shorts - longs), total, 100.0 * r);
    assert Imbalance(longs, shorts) == 100.0 * r;
    RatioReaches(r, shorts - longs, total, 0.65);
    RatioReaches(r, shorts - longs, total, 0.35);
  }

  lemma RatioReaches(r: real, x: real, total: real, limit: real)
    requires total > 0.0 && r * total == x
    ensures Abs(r) >= limit <==> Abs(x) >= limit * total
  {
    LessTimes(r, limit, total);
    LessTimes(-r, limit, total);
    assert -r * total == -x;
  }

  /** Forced sells alone mean liquidated longs and nothing else, and forced buys alone liquidated shorts; whatever
      its size, any such one-sided flow is of the highest level. */
  lemma OneSidedFlow(symbol: string, now: int, events: seq<Event>, order: string)
    requires order == "SELL" || order == "BUY"
    requires forall i :: 0 <= i < |events| ==> events[i].notional >= 0.0 && Upper(events[i].side) == order
    ensures var p := PressureOf(symbol, now, events);
      && (order == "SELL" ==> p.shorts == 0.0) && (order == "BUY" ==> p.longs == 0.0)
      && ((exists i :: 0 <= i < |events| && events[i].notional > 0.0) ==>
            p.direction == (if order == "SELL" then Longs else Shorts) && p.level == High)
  {
    NotionalIsSum(events);
    OneSidedSums(events, order);
    PressureMeans(symbol, now, events);
    assert RoundHalfUp(0.0) == 0;
  }

  lemma {:induction false} OneSidedSums(events: seq<Event>, order: string)
    requires order == "SELL" || order == "BUY"
    requires forall i :: 0 <= i < |events| ==> events[i].notional >= 0.0 && Upper(events[i].side) == order
    ensures Sum(ValuesOf(events, if order == "SELL" then "BUY" else "SELL")) == 0.0
    ensures Sum(ValuesOf(events, order)) >= 0.0
    ensures (exists i :: 0 <= i < |events| && events[i].notional > 0.0) ==> Sum(ValuesOf(events, order)) > 0.0
  {
    if events != [] {
      var n := |events| - 1;
      OneSidedSums(events[..n], order);
      SumSnoc(ValuesOf(events[..n], order), events[n].notional);
      var other := if order == "SELL" then "BUY" else "SELL";
      assert order[0] != other[0];
      assert ValuesOf(events, other) == ValuesOf(events[..n], other);
      if i :| 0 <= i < |events| && events[i].notional > 0.0 {
        assert i < n ==> events[..n][i].notional > 0.0;
      }
    }
  }

  // ----- the service object -----

  function LogOf(log: map<string, seq<Op>>, symbol: string): seq<Op> {
    if symbol in log then log[symbol] else []
  }

  function QueueAt(events: map<string, seq<Event>>, symbol: string): seq<Event> {
    if symbol in events then events[symbol] else []
  }

  /** Every symbol's queue is what its operations built. */
  ghost predicate Agree(events: map<string, seq<Event>>, log: map<string, seq<Op>>, retention: int) {
    forall s :: QueueAt(events, s) == Queue(LogOf(log, s), retention)
  }

  /** One more operation on one symbol's queue. */
  lemma AgreeAfter(events: map<string, seq<Event>>, log: map<string, seq<Op>>, retention: int, symbol: string,
                   op: Op, events': map<string, seq<Event>>, log': map<string, seq<Op>>)
    requires Agree(events, log, retention)
    requires log' == log[symbol := LogOf(log, symbol) + [op]]
    requires forall s :: s != symbol ==> QueueAt(events', s) == QueueAt(events, s)
    requires QueueAt(events', symbol) ==
      var pruned := Prune(QueueAt(events, symbol), op.Reference() - retention);
      if op.Arrive? then pruned + [op.e] else pruned
    ensures Agree(events', log', retention)
  {
    QueueSnoc(LogOf(log, symbol), op, retention);
    assert QueueAt(events, symbol) == Queue(LogOf(log, symbol), retention);
    forall s
      ensures QueueAt(events', s) == Queue(LogOf(log', s), retention)
    {
      assert QueueAt(events, s) == Queue(LogOf(log, s), retention);
    }
  }

  lemma QueueSnoc(ops: seq<Op>, op: Op, retention: int)
    ensures Queue(ops + [op], retention) ==
      var pruned := Prune(Queue(ops, retention), op.Reference() - retention);
      if op.Arrive? then pruned + [op.e] else pruned
  {
    assert (ops + [op])[..|ops|] == ops;
  }

  class FeedService {
    var events: map<string, seq<Event>>
    const retention: int
    var lastUpdateTime: Option<int>
    var lastError: Option<string>
    ghost var log: map<string, seq<Op>>

    ghost predicate Valid()
      reads this
    {
      Agree(events, log, retention)
    }

    constructor (retentionMinutes: int)
      ensures Valid() && log == map[] && retention == MaxInt(1, retentionMinutes) * MINUTE
    {
      retention := MaxInt(1, retentionMinutes) * MINUTE;
      events, log, lastUpdateTime, lastError := map[], map[], None, None;
    }

    /** Pops old events off the front of one queue. */
    method PruneQueue(symbol: string, now: int)
      modifies this`events
      ensures symbol !in old(events) ==> events == old(events)
      ensures symbol in old(events) ==>
        events == old(events)[symbol := Prune(old(events)[symbol], now - retention)]
    {
      if symbol !in events {
        return;
      }
      var cutoff := now - retention;
      var queue := events[symbol];
      while queue != [] && queue[0].eventTime < cutoff
        invariant Prune(queue, cutoff) == Prune(old(events)[symbol], cutoff)
      {
        queue := queue[1..];
      }
      events := events[symbol := queue];
    }

    method AddEvent(e: Event)
      requires Valid()
      modifies this
      ensures Valid() && log == old(log)[e.symbol := LogOf(old(log), e.symbol) + [Arrive(e)]]
      ensures lastUpdateTime == Some(e.eventTime) && lastError == None
    {
      PruneQueue(e.symbol, e.eventTime);
      var queue := if e.symbol in events then events[e.symbol] else [];
      events := events[e.symbol := queue + [e]];
      lastUpdateTime := Some(e.eventTime);
      lastError := None;
      log := log[e.symbol := LogOf(log, e.symbol) + [Arrive(e)]];
      AgreeAfter(old(events), old(log), retention, e.symbol, Arrive(e), events, log);
    }

    /** Prunes a queue at a reference time. */
    method Refresh(symbol: string, now: int) returns (queue: seq<Event>)
      requires Valid()
      modifies this`events, this`log
      ensures Valid() && log == old(log)[symbol := LogOf(old(log), symbol) + [Query(now)]]
      ensures queue == Queue(LogOf(old(log), symbol) + [Query(now)], retention)
    {
      PruneQueue(symbol, now);
      queue := if symbol in events then events[symbol] else [];
      log := log[symbol := LogOf(log, symbol) + [Query(now)]];
      AgreeAfter(old(events), old(log), retention, symbol, Query(now), events, log);
      assert queue == QueueAt(events, symbol);
    }

    static method SelectWindow(queue: seq<Event>, cutoff: int) returns (r: seq<Event>)
      ensures r == Window(queue, cutoff)
    {
      r := [];
      var i := 0;
      while i < |queue|
        invariant 0 <= i <= |queue|
        invariant r == Window(queue[..i], cutoff)
      {
        assert queue[..i + 1][..i] == queue[..i];
        if queue[i].eventTime >= cutoff {
          r := r + [queue[i]];
        }
        i := i + 1;
      }
      assert queue[..|queue|] == queue;
    }

    /** Prunes at `now` and reads the window; when the window is safe this is the filtered history. */
    method RecentEvents(symbol: string, now: int, lookbackMinutes: int) returns (r: seq<Event>)
      requires Valid()
      modifies this`events, this`log
      ensures Valid() && log == old(log)[Upper(symbol) := LogOf(old(log), Upper(symbol)) + [Query(now)]]
      ensures var ops, lookback := LogOf(old(log), Upper(symbol)), MaxInt(1, lookbackMinutes) * MINUTE;
        && r == Window(Queue(ops + [Query(now)], retention), now - lookback)
        && (WindowSafe(ops, retention, now, lookback) ==> r == Window(History(ops), now - lookback))
    {
      ghost var ops := LogOf(log, Upper(symbol));
      var queue := Refresh(Upper(symbol), now);
      var lookback := MaxInt(1, lookbackMinutes) * MINUTE;
      r := SelectWindow(queue, now - lookback);
      if WindowSafe(ops, retention, now, lookback) {
        WindowIsExact(ops, retention, now, lookback);
      }
    }

    method PressureSnapshot(symbol: string, now: int, lookbackMinutes: int) returns (p: Pressure)
      requires Valid()
      modifies this`events, this`log
      ensures Valid() && log == old(log)[Upper(symbol) := LogOf(old(log), Upper(symbol)) + [Query(now)]]
      ensures var ops, lookback := LogOf(old(log), Upper(symbol)), MaxInt(1, lookbackMinutes) * MINUTE;
        && p == PressureOf(Upper(symbol), now, Window(Queue(ops + [Query(now)], retention), now - lookback))
        && (WindowSafe(ops, retention, now, lookback) ==>
              p == PressureOf(Upper(symbol), now, Window(History(ops), now - lookback)))
    {
      var events := RecentEvents(symbol, now, lookbackMinutes);
      p := PressureOf(Upper(symbol), now, events);
    }
  }
}
