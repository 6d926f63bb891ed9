/** The per-session candle gate: which closed candles reach `process_snapshot`, although the stream
    manager carries the last candle into every later trade and book snapshot. */
module RuntimeGate {
  import opened Prelude
  import opened MarketData
  import SM = StreamManager
  import opened RuntimeModel
  import opened RuntimeLifecycle

  /** Appends a candle that opens later than the last one kept. */
  function Extend(kept: seq<Candle>, c: Candle): seq<Candle> {
    if kept == [] || c.openTime > kept[|kept| - 1].openTime then kept + [c] else kept
  }

  /** The candles that open later than everything before them. */
  function StrictMaxima(xs: seq<Candle>): seq<Candle> {
    if xs == [] then [] else Extend(StrictMaxima(xs[..|xs| - 1]), xs[|xs| - 1])
  }

  ghost predicate IsRecord(xs: seq<Candle>, i: nat)
    requires i < |xs|
  {
    forall j :: 0 <= j < i ==> xs[j].openTime < xs[i].openTime
  }

  lemma MaximaSnoc(xs: seq<Candle>, c: Candle)
    ensures StrictMaxima(xs + [c]) == Extend(StrictMaxima(xs), c)
  {
    assert (xs + [c])[..|xs|] == xs;
  }

  ghost predicate Increasing(m: seq<Candle>) {
    forall k, l :: 0 <= k < l < |m| ==> m[k].openTime < m[l].openTime
  }

  ghost predicate Bounds(m: seq<Candle>, xs: seq<Candle>) {
    xs != [] ==> m != [] && forall i :: 0 <= i < |xs| ==> xs[i].openTime <= m[|m| - 1].openTime
  }

  lemma {:induction false} MaximaIncrease(xs: seq<Candle>)
    ensures Increasing(StrictMaxima(xs)) && Bounds(StrictMaxima(xs), xs)
    ensures forall c :: c in StrictMaxima(xs) ==> c in xs
  {
    if xs != [] {
      MaximaIncrease(xs[..|xs| - 1]);
    }
  }

  ghost predicate IsRecordValue(xs: seq<Candle>, c: Candle) {
    exists i :: 0 <= i < |xs| && xs[i] == c && IsRecord(xs, i)
  }

  /** Appending a candle keeps the records and adds the new one exactly when it opens last. */
  lemma RecordsSnoc(xs: seq<Candle>, x: Candle, c: Candle)
    ensures IsRecordValue(xs + [x], c)
      <==> IsRecordValue(xs, c) || (c == x && forall j :: 0 <= j < |xs| ==> xs[j].openTime < x.openTime)
  {
    var ys := xs + [x];
    if IsRecordValue(xs, c) {
      var i :| 0 <= i < |xs| && xs[i] == c && IsRecord(xs, i);
      assert ys[i] == c && IsRecord(ys, i);
    }
    if IsRecordValue(ys, c) {
      var i :| 0 <= i < |ys| && ys[i] == c && IsRecord(ys, i);
      if i < |xs| {
        assert xs[i] == c && IsRecord(xs, i) by {
          assert forall j :: 0 <= j < i ==> xs[j] == ys[j];
        }
      } else {
        assert forall j :: 0 <= j < |xs| ==> xs[j] == ys[j];
      }
    }
    if c == x && forall j :: 0 <= j < |xs| ==> xs[j].openTime < x.openTime {
      assert ys[|xs|] == c && IsRecord(ys, |xs|);
    }
  }

  /** `StrictMaxima` lists exactly the records of the sequence, in strictly increasing open time. */
  lemma {:induction false} StrictMaximaAreTheRecords(xs: seq<Candle>, c: Candle)
    ensures c in StrictMaxima(xs) <==> IsRecordValue(xs, c)
  {
    if xs != [] {
      var ys, x := xs[..|xs| - 1], xs[|xs| - 1];
      StrictMaximaAreTheRecords(ys, c);
      MaximaIncrease(ys);
      assert ys + [x] == xs;
      RecordsSnoc(ys, x, c);
      LastIsLargest(StrictMaxima(ys), ys, x);
    }
  }

  /** A candle extends the maxima exactly when it opens after everything before. */
  lemma LastIsLargest(m: seq<Candle>, xs: seq<Candle>, x: Candle)
    requires Bounds(m, xs) && (forall c :: c in m ==> c in xs)
    ensures Extend(m, x) == m + [x] <==> forall j :: 0 <= j < |xs| ==> xs[j].openTime < x.openTime
  {
    if m != [] {
      assert m[|m| - 1] in xs;
    }
  }

  /** Offering a candle again changes nothing. */
  lemma RepeatIsAbsorbed(xs: seq<Candle>, c: Candle)
    requires c in xs
    ensures StrictMaxima(xs + [c]) == StrictMaxima(xs)
  {
    MaximaSnoc(xs, c);
    MaximaIncrease(xs);
  }

  // ----- the gate invariant -----

  function GateOf(symbol: string, cycled: seq<Candle>): map<string, int> {
    if cycled == [] then map[] else map[symbol := cycled[|cycled| - 1].openTime]
  }

  /** While a session is active its gate holds the last candle handed over, under the session's symbol. */
  predicate GateMatches(s: Sys) {
    Active(s.status.state) && !s.status.recovered && s.status.symbol.Some? ==>
      s.gate == GateOf(s.status.symbol.value, s.cycled)
  }

  predicate GateInv(s: Sys) {
    GateMatches(s) && s.cycled == StrictMaxima(s.offered)
  }

  /** The gate lets a candle through exactly when it extends what was handed over. */
  lemma GateDecides(symbol: string, cycled: seq<Candle>, c: Candle)
    ensures var gate := GateOf(symbol, cycled);
      if PassesGate(gate, symbol, c)
      then Extend(cycled, c) == cycled + [c] && GateOf(symbol, cycled + [c]) == gate[symbol := c.openTime]
      else Extend(cycled, c) == cycled
  {
  }

  /** How a step may change the observations of the session. */
  datatype Observed = Same | Restarted | Offered(c: Candle)

  predicate Observes(s: Sys, o: Observed, s': Sys) {
    match o
    case Same => s'.offered == s.offered && s'.cycled == s.cycled
    case Restarted => s'.offered == [] && s'.cycled == []
    case Offered(c) => s'.offered == s.offered + [c] && s'.cycled == Extend(s.cycled, c)
  }

  lemma CycleObserves(s: Sys, e: Event, c: Candle)
    requires GateMatches(s) && e.Deliver? && Enabled(s, e) && OwnedTask(s, e.t) && !e.cycle.IngestRaises?
    ensures GateMatches(DoCycle(s, e, c)) && Observes(s, Offered(c), DoCycle(s, e, c))
  {
    GateDecides(s.tasks[e.t].symbol, s.cycled, c);
  }

  lemma EndObserves(s: Sys, t: nat, error: string, w: Writes)
    requires t < |s.tasks| && GateMatches(s)
    ensures !Active(EndTask(s, t, w).status.state) && Observes(s, Same, EndTask(s, t, w))
    ensures !Active(FailTask(s, t, error, w).status.state) && Observes(s, Same, FailTask(s, t, error, w))
  {
  }

  lemma NotedObserves(s: Sys, e: Event)
    requires GateMatches(s) && e.Deliver? && Enabled(s, e) && OwnedTask(s, e.t) && e.payload.Carries()
    ensures var noted := Noted(s, e);
      && GateMatches(noted) && OwnedTask(noted, e.t) && Enabled(noted, e)
      && noted.offered == s.offered && noted.cycled == s.cycled
      && noted.tasks == s.tasks && noted.status.state == s.status.state
  {
  }

  /** A payload the loop takes in, from the state that has noted it. */
  lemma NotedDeliveryObserves(s: Sys, noted: Sys, e: Event, considered: Option<Candle>)
    requires GateMatches(noted) && e.Deliver? && Enabled(noted, e) && OwnedTask(noted, e.t) && !e.cycle.IngestRaises?
    requires noted.offered == s.offered && noted.cycled == s.cycled
    ensures var s' := match considered case None => noted case Some(c) => DoCycle(noted, e, c);
      && GateMatches(s') && Observes(s, if considered.Some? then Offered(considered.value) else Same, s')
  {
    if considered.Some? {
      CycleObserves(noted, e, considered.value);
    }
  }

  lemma DeliverObserves(s: Sys, e: Event) returns (o: Observed)
    requires GateMatches(s) && e.Deliver? && Enabled(s, e) && OwnedTask(s, e.t)
    ensures GateMatches(DoDeliver(s, e)) && Observes(s, o, DoDeliver(s, e))
  {
    o := Same;
    if !e.payload.Carries() {
      EndObserves(s, e.t, e.error, e.w);
    } else {
      var noted := Noted(s, e);
      NotedObserves(s, e);
      if e.cycle.IngestRaises? {
        EndObserves(noted, e.t, e.error, e.w);
      } else {
        var considered := Considered(noted.feed[e.payload.Symbol()], s.tasks[e.t].symbol, s.status.state);
        NotedDeliveryObserves(s, noted, e, considered);
        o := if considered.Some? then Offered(considered.value) else Same;
      }
    }
  }

  lemma StartObserves(s: Sys, e: Event) returns (o: Observed)
    requires GateMatches(s) && e.Start?
    ensures GateMatches(DoStart(s, e)) && Observes(s, o, DoStart(s, e))
  {
    o := if StartAccepted(s, Upper(e.symbol)) then Restarted else Same;
  }

  lemma RestartObserves(s: Sys, w: Writes)
    ensures GateMatches(DoRestart(s, w)) && Observes(s, Restarted, DoRestart(s, w))
  {
  }

  lemma PauseResumeObserves(s: Sys, e: Event)
    requires Inv(s) && GateMatches(s) && Enabled(s, e) && (e.Pause? || e.Resume?)
    ensures GateMatches(Step(s, e)) && Observes(s, Same, Step(s, e))
  {
    if TaskRunning(s) {
      assert OwnedTask(s, s.task.value);
    }
  }

  lemma ManualObserves(s: Sys, e: Event)
    requires GateMatches(s) && e.Manual?
    ensures GateMatches(DoManual(s, e)) && Observes(s, Same, DoManual(s, e))
  {
  }

  lemma FinishObserves(s: Sys, thenReset: bool, w: Writes)
    ensures !Active(FinishStop(s, thenReset, w).status.state) && Observes(s, Same, FinishStop(s, thenReset, w))
  {
  }

  lemma StopObserves(s: Sys, e: Event)
    requires Inv(s) && GateMatches(s) && Enabled(s, e) && (e.Stop? || e.StopContinues?)
    ensures GateMatches(Step(s, e)) && Observes(s, Same, Step(s, e))
  {
    if e.Stop? {
      FinishObserves(s.(task := None), e.thenReset, e.w);
    } else {
      FinishObserves(s, s.stopping.value.thenReset, e.w);
    }
  }

  lemma TaskObserves(s: Sys, e: Event)
    requires Inv(s) && GateMatches(s) && Enabled(s, e)
    requires e.TaskBegins? || e.StreamEnds? || e.StreamRaises? || e.CancelArrives?
    ensures GateMatches(Step(s, e)) && Observes(s, Same, Step(s, e))
  {
    EndObserves(s, e.t, if e.StreamRaises? then e.error else "", if e.TaskBegins? then NO_WRITES else e.w);
  }

  lemma StepKeepsGate(s: Sys, e: Event)
    requires Inv(s) && GateInv(s) && Enabled(s, e)
    ensures GateInv(Step(s, e))
  {
    var o := Same;
    match e {
      case Deliver(t, _, _, _, _, _) => assert OwnedTask(s, t); o := DeliverObserves(s, e);
      case Stop(_, _) => StopObserves(s, e);
      case StopContinues(_) => StopObserves(s, e);
      case TaskBegins(_) => TaskObserves(s, e);
      case StreamEnds(_, _) => TaskObserves(s, e);
      case StreamRaises(_, _, _) => TaskObserves(s, e);
      case CancelArrives(_, _) => TaskObserves(s, e);
      case Start(_, _, _, _, _) => o := StartObserves(s, e);
      case CrashAndRestart(w) => RestartObserves(s, w); o := Restarted;
      case Pause(_) => PauseResumeObserves(s, e);
      case Resume(_) => PauseResumeObserves(s, e);
      case Manual(_, _, _) => ManualObserves(s, e);
    }
    ObservedMaxima(s, o, Step(s, e));
  }

  lemma ObservedMaxima(s: Sys, o: Observed, s': Sys)
    requires s.cycled == StrictMaxima(s.offered) && Observes(s, o, s')
    ensures s'.cycled == StrictMaxima(s'.offered)
  {
    if o.Offered? {
      MaximaSnoc(s.offered, o.c);
    }
  }

  lemma {:induction false} RunKeepsGate(s: Sys, events: seq<Event>)
    requires Inv(s) && GateInv(s) && Possible(s, events)
    ensures Inv(After(s, events)) && GateInv(After(s, events))
    decreases events
  {
    if events != [] {
      StepKeepsGate(s, events[0]);
      StepKeepsInv(s, events[0]);
      RunKeepsGate(Step(s, events[0]), events[1..]);
    }
  }

  // ----- from raw payloads to cycles -----

  /** The closed candles a raw stream itself announces for one symbol. */
  function ClosedKlines(events: seq<Event>, symbol: string): seq<Candle> {
    if events == [] then []
    else Announced(events[0], symbol) + ClosedKlines(events[1..], symbol)
  }

  function Announced(e: Event, symbol: string): seq<Candle> {
    if e.Deliver? && e.payload.KlineEvent? && e.payload.kline.isClosed && Upper(e.payload.kline.symbol) == symbol
    then [e.payload.kline] else []
  }

  /** A delivery to task `t` that raises nowhere. */
  predicate CalmDelivery(e: Event, t: nat) {
    e.Deliver? && e.t == t && !e.payload.Malformed? && (e.cycle.NoCycle? || e.cycle.Completed?)
  }

  ghost predicate FeedSound(s: Sys) {
    SM.KeyedByOwnSymbol(s.feed)
  }

  /** Every closed candle the cache carries for the session's symbol has been offered already. */
  ghost predicate CarriedWereOffered(feed: SM.Cache, symbol: string, offered: seq<Candle>) {
    forall k :: k in feed && Upper(k) == symbol && feed[k].candle.Some? && feed[k].candle.value.isClosed ==>
      feed[k].candle.value in offered
  }

  ghost predicate RunningOn(s: Sys, t: nat) {
    && Inv(s) && GateInv(s) && FeedSound(s)
    && t < |s.tasks| && s.tasks[t].phase == Streaming && s.status.state == Running
    && CarriedWereOffered(s.feed, s.tasks[t].symbol, s.offered)
  }

  /** What a calm delivery offers: the candle carried by the payload's own symbol, if it is closed and ours. */
  lemma CalmOffer(s: Sys, t: nat, e: Event)
    requires t < |s.tasks| && s.tasks[t].phase == Streaming && s.status.state == Running
    requires CalmDelivery(e, t) && e.payload.Carries()
    ensures var noted := Noted(s, e);
      var c := Considered(noted.feed[e.payload.Symbol()], s.tasks[t].symbol, Running);
      var s' := DoDeliver(s, e);
      && s'.feed == noted.feed && s'.tasks == s.tasks && s'.status == noted.status
      && s'.offered == if c.Some? then s.offered + [c.value] else s.offered
  {
  }

  /** After one payload the carried candles are offered again, and a carried candle that the payload did
      not announce itself was offered before. */
  lemma CarriedStaysOffered(feed: SM.Cache, p: Payload, at: int, symbol: string, offered: seq<Candle>)
    requires p.Carries() && CarriedWereOffered(feed, symbol, offered)
    ensures var feed' := SM.Ingest(feed, p, at);
      var c := Considered(feed'[p.Symbol()], symbol, Running);
      && (c.Some? ==> CarriedWereOffered(feed', symbol, offered + [c.value]))
      && (c.None? ==> CarriedWereOffered(feed', symbol, offered))
      && (c.Some? && !p.KlineEvent? ==> c.value in offered)
      && (p.KlineEvent? ==> c == if p.kline.isClosed && Upper(p.kline.symbol) == symbol then Some(p.kline) else None)
  {
  }

  lemma CalmStep(s: Sys, t: nat, e: Event, base: seq<Candle>)
    requires RunningOn(s, t) && CalmDelivery(e, t) && s.cycled == StrictMaxima(base)
    ensures Enabled(s, e) && RunningOn(Step(s, e), t) && Step(s, e).tasks == s.tasks
    ensures Step(s, e).cycled == StrictMaxima(base + Announced(e, s.tasks[t].symbol))
  {
    StepKeepsInv(s, e);
    StepKeepsGate(s, e);
    assert base + [] == base;
    if e.payload.Carries() {
      CalmOffer(s, t, e);
      CarriedStaysOffered(s.feed, e.payload, e.receivedAt, s.tasks[t].symbol, s.offered);
      CalmMaxima(s, t, e, base);
    }
  }

  lemma CalmMaxima(s: Sys, t: nat, e: Event, base: seq<Candle>)
    requires RunningOn(s, t) && CalmDelivery(e, t) && s.cycled == StrictMaxima(base) && e.payload.Carries()
    ensures StrictMaxima(DoDeliver(s, e).offered) == StrictMaxima(base + Announced(e, s.tasks[t].symbol))
  {
    CalmOffer(s, t, e);
    CarriedStaysOffered(s.feed, e.payload, e.receivedAt, s.tasks[t].symbol, s.offered);
    var c := Considered(Noted(s, e).feed[e.payload.Symbol()], s.tasks[t].symbol, Running);
    assert base + [] == base;
    if c.Some? {
      MaximaSnoc(s.offered, c.value);
      MaximaSnoc(base, c.value);
      if !e.payload.KlineEvent? {
        RepeatIsAbsorbed(s.offered, c.value);
      }
    }
  }

  /** Over any stretch of a running session the cycles are the strict maxima of what came before it (its
      maxima are those of `base`) followed by the closed candles the raw stream itself announced:
      re-delivery adds nothing. */
  lemma {:induction false} RawStreamExactlyOnce(s: Sys, t: nat, events: seq<Event>, base: seq<Candle>)
    requires RunningOn(s, t) && s.cycled == StrictMaxima(base)
    requires forall i :: 0 <= i < |events| ==> CalmDelivery(events[i], t)
    ensures Possible(s, events)
    ensures After(s, events).cycled == StrictMaxima(base + ClosedKlines(events, s.tasks[t].symbol))
    decreases events
  {
    if events == [] {
      assert base + [] == base;
    } else {
      var e, rest := events[0], events[1..];
      CalmStep(s, t, e, base);
      RawStreamExactlyOnce(Step(s, e), t, rest, base + Announced(e, s.tasks[t].symbol));
      RawStreamExtends(s, events, base, s.tasks[t].symbol);
    }
  }

  lemma RawStreamExtends(s: Sys, events: seq<Event>, base: seq<Candle>, symbol: string)
    requires events != [] && Enabled(s, events[0]) && Possible(Step(s, events[0]), events[1..])
    requires After(Step(s, events[0]), events[1..]).cycled
      == StrictMaxima(base + Announced(events[0], symbol) + ClosedKlines(events[1..], symbol))
    ensures Possible(s, events) && After(s, events).cycled == StrictMaxima(base + ClosedKlines(events, symbol))
  {
    AnnouncedFirst(events, symbol, base);
  }

  lemma AnnouncedFirst(events: seq<Event>, symbol: string, base: seq<Candle>)
    requires events != []
    ensures base + Announced(events[0], symbol) + ClosedKlines(events[1..], symbol)
      == base + ClosedKlines(events, symbol)
  {
    AppendAssociates(base, Announced(events[0], symbol), ClosedKlines(events[1..], symbol));
  }

  /** A closed candle the cache carries is handed over by the next trade or book update, however long ago
      it was announced, if the gate lets it through. This is how a candle that closed during a pause is
      caught up with after `resume`. */
  lemma CarriedCandleIsCaughtUp(s: Sys, t: nat, e: Event, c: Candle)
    requires Inv(s) && t < |s.tasks| && s.tasks[t].phase == Streaming && s.status.state == Running
    requires e.Deliver? && e.t == t && (e.payload.TradeEvent? || e.payload.BookEvent?) && !e.cycle.IngestRaises?
    requires Upper(e.payload.Symbol()) == s.tasks[t].symbol
    requires e.payload.Symbol() in s.feed && s.feed[e.payload.Symbol()].candle == Some(c) && c.isClosed
    requires PassesGate(s.gate, s.tasks[t].symbol, c)
    ensures Enabled(s, e) && Step(s, e).cycled == s.cycled + [c]
  {
    var noted := Noted(s, e);
    assert Considered(noted.feed[e.payload.Symbol()], s.tasks[t].symbol, s.status.state) == Some(c);
    PassedCandleIsCycled(noted, e, c);
  }

  lemma PassedCandleIsCycled(s: Sys, e: Event, c: Candle)
    requires e.Deliver? && e.t < |s.tasks| && !e.cycle.IngestRaises? && PassesGate(s.gate, s.tasks[e.t].symbol, c)
    ensures DoCycle(s, e, c).cycled == s.cycled + [c]
  {
    var handed := s.(offered := s.offered + [c], cycled := s.cycled + [c]);
    if e.cycle.ProcessRaises? || e.cycle.SignalRaises? {
      assert FailTask(handed.(runner := Some(e.cycle.after)), e.t, e.error, e.w).cycled == handed.cycled;
    }
  }
}
