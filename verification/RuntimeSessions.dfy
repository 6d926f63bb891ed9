/** Exactly once, read off the event sequence itself: which candles every run of the runtime offers to the
    gate, and when a new session starts without repeating an old candle. */
module RuntimeSessions {
  import opened Prelude
  import opened MarketData
  import SM = StreamManager
  import opened RuntimeModel
  import opened RuntimeLifecycle
  import opened RuntimeGate

  // ----- runs taken apart at their last event -----

  lemma {:induction false} LastStep(s: Sys, events: seq<Event>)
    requires Possible(s, events) && events != []
    ensures var n := |events| - 1;
      && Possible(s, events[..n]) && Enabled(After(s, events[..n]), events[n])
      && After(s, events) == Step(After(s, events[..n]), events[n])
    decreases events
  {
    var n := |events| - 1;
    if n == 0 {
      assert events[1..] == [];
    } else {
      LastStep(Step(s, events[0]), events[1..]);
      assert events[..n][1..] == events[1..][..n - 1] && events[..n][0] == events[0];
    }
  }

  // ----- the cache is the stream manager's replay -----

  /** What the stream manager was fed since the process began. */
  function Fed(events: seq<Event>): seq<SM.Op> {
    if events == [] then []
    else
      var before, e := Fed(events[..|events| - 1]), events[|events| - 1];
      if e.CrashAndRestart? then []
      else if e.Deliver? && e.payload.Carries() then before + [SM.Feed(e.payload, e.receivedAt)]
      else before
  }

  predicate Feeding(e: Event) {
    e.Deliver? && e.payload.Carries()
  }

  lemma DeliverFeed(s: Sys, e: Event)
    requires e.Deliver? && Enabled(s, e)
    ensures DoDeliver(s, e).feed ==
      if e.payload.Carries() then SM.Ingest(s.feed, e.payload, e.receivedAt) else s.feed
  {
    if e.payload.Carries() && !e.cycle.IngestRaises? {
      var noted := Noted(s, e);
      match Considered(noted.feed[e.payload.Symbol()], s.tasks[e.t].symbol, s.status.state)
      case None =>
      case Some(c) => CycleOffers(noted, e, c);
    }
  }

  lemma StepFeed(s: Sys, e: Event)
    requires Enabled(s, e)
    ensures Step(s, e).feed ==
      if e.CrashAndRestart? then map[]
      else if Feeding(e) then SM.Ingest(s.feed, e.payload, e.receivedAt)
      else s.feed
  {
    match e
    case Deliver(_, _, _, _, _, _) => DeliverFeed(s, e);
    case _ =>
  }

  lemma {:induction false} FeedIsReplay(events: seq<Event>)
    requires Possible(FRESH, events)
    ensures After(FRESH, events).feed == SM.Replay(Fed(events), 0)
  {
    if events != [] {
      var prefix, e := events[..|events| - 1], events[|events| - 1];
      LastStep(FRESH, events);
      FeedIsReplay(prefix);
      StepFeed(After(FRESH, prefix), e);
      if Feeding(e) {
        assert Fed(events)[..|Fed(events)| - 1] == Fed(prefix);
      }
    }
  }

  // ----- what a session meets -----

  /** The closed candle a payload shows, going by the payloads alone: the latest kline fed for the payload's
      own symbol, announced by this payload or carried from an earlier one. */
  function Shown(ops: seq<SM.Op>, p: Payload): seq<Candle>
    requires p.Carries()
  {
    var kline := SM.LastKline(ops, p.Symbol());
    if kline.Some? && kline.value.isClosed then [kline.value] else []
  }

  /** A payload the loop looks at: for the session's symbol, while not paused, and taken in by the runner. */
  predicate LookedAt(s: Sys, e: Event)
    requires Enabled(s, e)
  {
    Feeding(e) && !e.cycle.IngestRaises? && s.status.state != Paused && Upper(e.payload.Symbol()) == s.tasks[e.t].symbol
  }

  /** The closed candles of the current session, as a function of the events: each payload looked at shows
      its symbol's latest kline; an accepted start and a restart begin anew. */
  function Met(events: seq<Event>): seq<Candle>
    requires Possible(FRESH, events)
  {
    if events == [] then []
    else
      LastStep(FRESH, events);
      var prefix, e := events[..|events| - 1], events[|events| - 1];
      var s := After(FRESH, prefix);
      if e.CrashAndRestart? || (e.Start? && StartAccepted(s, Upper(e.symbol))) then []
      else if LookedAt(s, e) then Met(prefix) + Shown(Fed(events), e.payload)
      else Met(prefix)
  }

  /** What a step adds to the candles offered to the gate. */
  lemma StepOffers(s: Sys, e: Event)
    requires Enabled(s, e)
    ensures var s' := Step(s, e);
      if e.CrashAndRestart? || (e.Start? && StartAccepted(s, Upper(e.symbol))) then s'.offered == []
      else if LookedAt(s, e) then s'.offered == s.offered + Carried(s'.feed, e.payload.Symbol())
      else s'.offered == s.offered
  {
    match e
    case Deliver(_, _, _, _, _, _) => DeliverOffers(s, e);
    case _ =>
  }

  /** The closed candle the cache holds for a symbol. */
  function Carried(feed: SM.Cache, symbol: string): seq<Candle> {
    if symbol in feed && feed[symbol].candle.Some? && feed[symbol].candle.value.isClosed
    then [feed[symbol].candle.value] else []
  }

  lemma CycleOffers(s: Sys, e: Event, c: Candle)
    requires e.Deliver? && Enabled(s, e) && !e.cycle.IngestRaises?
    ensures DoCycle(s, e, c).offered == s.offered + [c] && DoCycle(s, e, c).feed == s.feed
  {
  }

  lemma DeliverOffers(s: Sys, e: Event)
    requires e.Deliver? && Enabled(s, e)
    ensures DoDeliver(s, e).offered ==
      s.offered + if LookedAt(s, e) then Carried(DoDeliver(s, e).feed, e.payload.Symbol()) else []
  {
    assert s.offered + [] == s.offered;
    if Feeding(e) && !e.cycle.IngestRaises? {
      var noted := Noted(s, e);
      match Considered(noted.feed[e.payload.Symbol()], s.tasks[e.t].symbol, s.status.state)
      case None =>
      case Some(c) => CycleOffers(noted, e, c);
    }
  }

  lemma CarriedIsShown(ops: seq<SM.Op>, p: Payload)
    requires p.Carries()
    ensures p.Symbol() in SM.Replay(ops, 0) ==> Carried(SM.Replay(ops, 0), p.Symbol()) == Shown(ops, p)
  {
    SM.ReplayIsLatestPerSymbol(ops, 0, p.Symbol());
  }

  /** Over every run the candles offered to the gate are those the events themselves show. */
  lemma {:induction false} OfferedIsMet(events: seq<Event>)
    requires Possible(FRESH, events)
    ensures After(FRESH, events).offered == Met(events)
  {
    if events != [] {
      var prefix, e := events[..|events| - 1], events[|events| - 1];
      LastStep(FRESH, events);
      OfferedIsMet(prefix);
      StepOffers(After(FRESH, prefix), e);
      FeedIsReplay(events);
      if Feeding(e) {
        StepFeed(After(FRESH, prefix), e);
        CarriedIsShown(Fed(events), e.payload);
      }
    }
  }

  /** Exactly once per session, over every run of the machine: the candles handed to `process_snapshot` in
      the current session are precisely those it met that opened after every earlier one it met; none is
      handed over twice, and none that should have been is missing. */
  lemma ExactlyOncePerSession(events: seq<Event>)
    requires Possible(FRESH, events)
    ensures var s := After(FRESH, events);
      && s.cycled == StrictMaxima(Met(events)) && Increasing(s.cycled)
      && (forall c :: c in s.cycled <==> IsRecordValue(Met(events), c))
  {
    FreshInv();
    RunKeepsGate(FRESH, events);
    OfferedIsMet(events);
    MaximaIncrease(Met(events));
    forall c {
      StrictMaximaAreTheRecords(Met(events), c);
    }
  }

  // ----- new sessions -----

  lemma StepKeepsFeedSound(s: Sys, e: Event)
    requires FeedSound(s) && Enabled(s, e)
    ensures FeedSound(Step(s, e))
  {
    StepFeed(s, e);
  }

  /** Every run keeps the cache keyed by its snapshots' own symbols. */
  lemma {:induction false} RunKeepsFeedSound(s: Sys, events: seq<Event>)
    requires FeedSound(s) && Possible(s, events)
    ensures FeedSound(After(s, events))
    decreases events
  {
    if events != [] {
      StepKeepsFeedSound(s, events[0]);
      RunKeepsFeedSound(Step(s, events[0]), events[1..]);
    }
  }

  /** The cache carries no closed candle of the symbol, under any spelling. */
  ghost predicate NothingCarried(feed: SM.Cache, symbol: string) {
    forall k :: k in feed && Upper(k) == symbol && feed[k].candle.Some? ==> !feed[k].candle.value.isClosed
  }

  /** A start that is accepted and logged. */
  predicate Launches(s: Sys, start: Event) {
    start.Start? && start.w.runLog && Enabled(s, start) && StartAccepted(s, Upper(start.symbol))
  }

  /** The state in which the new loop waits for its first payload. */
  lemma SessionBegins(s: Sys, start: Event) returns (s2: Sys)
    requires Inv(s) && GateInv(s) && FeedSound(s) && Launches(s, start)
    ensures var t := |s.tasks|; var s1 := Step(s, start);
      && Enabled(s1, TaskBegins(t)) && s2 == Step(s1, TaskBegins(t))
      && Inv(s2) && GateInv(s2) && FeedSound(s2) && s2.feed == s.feed
      && t < |s2.tasks| && s2.tasks[t] == Task(Upper(start.symbol), Streaming) && s2.status.state == Running
      && s2.offered == [] && s2.cycled == [] && s2.gate == map[]
  {
    var t, s1 := |s.tasks|, Step(s, start);
    StepKeepsInv(s, start);
    StepKeepsGate(s, start);
    assert s1.tasks[t] == Task(Upper(start.symbol), Created);
    RunnerIsThereWhenTaskBegins(s1, TaskBegins(t));
    StepKeepsInv(s1, TaskBegins(t));
    StepKeepsGate(s1, TaskBegins(t));
    s2 := Step(s1, TaskBegins(t));
  }

  function SessionRun(s: Sys, start: Event, events: seq<Event>): seq<Event> {
    [start, TaskBegins(|s.tasks|)] + events
  }

  lemma SessionRunLeads(s: Sys, start: Event, s2: Sys, events: seq<Event>)
    requires Enabled(s, start) && Enabled(Step(s, start), TaskBegins(|s.tasks|))
    requires s2 == Step(Step(s, start), TaskBegins(|s.tasks|)) && Possible(s2, events)
    ensures Possible(s, SessionRun(s, start, events)) && After(s, SessionRun(s, start, events)) == After(s2, events)
  {
    var t := |s.tasks|;
    ConsRun(Step(s, start), TaskBegins(t), events);
    ConsRun(s, start, [TaskBegins(t)] + events);
    assert [start] + ([TaskBegins(t)] + events) == [start, TaskBegins(t)] + events;
  }

  /** The session's cycles are the strict maxima of the closed candles announced to it, whatever calm events follow. */
  ghost predicate OnlyAnnounced(s: Sys, start: Event, events: seq<Event>)
    requires start.Start?
  {
    var run := SessionRun(s, start, events);
    Possible(s, run) && After(s, run).cycled == StrictMaxima(ClosedKlines(events, Upper(start.symbol)))
  }

  ghost predicate Calm(events: seq<Event>, t: nat) {
    forall i :: 0 <= i < |events| ==> CalmDelivery(events[i], t)
  }

  /** With nothing carried over a new session processes exactly the announced candles. */
  lemma NewSessionExactlyOnce(s: Sys, start: Event, events: seq<Event>)
    requires Inv(s) && GateInv(s) && FeedSound(s) && Launches(s, start) && Calm(events, |s.tasks|)
    requires NothingCarried(s.feed, Upper(start.symbol))
    ensures OnlyAnnounced(s, start, events)
  {
    var s2 := SessionBegins(s, start);
    RawStreamExactlyOnce(s2, |s.tasks|, events, []);
    assert [] + ClosedKlines(events, Upper(start.symbol)) == ClosedKlines(events, Upper(start.symbol));
    SessionRunLeads(s, start, s2, events);
  }

  /** The cache outlives the session while `start` clears the gate, so a new session on the same symbol
      processes a carried closed candle once more, on the first trade. */
  lemma NewSessionRepeatsCarriedCandle(s: Sys, start: Event, e: Event, c: Candle)
    requires Inv(s) && GateInv(s) && FeedSound(s) && Launches(s, start)
    requires e.Deliver? && e.t == |s.tasks| && e.payload.TradeEvent? && !e.cycle.IngestRaises?
    requires Upper(e.payload.Symbol()) == Upper(start.symbol)
    requires e.payload.Symbol() in s.feed && s.feed[e.payload.Symbol()].candle == Some(c) && c.isClosed
    ensures Possible(s, SessionRun(s, start, [e])) && After(s, SessionRun(s, start, [e])).cycled == [c]
  {
    var s2 := SessionBegins(s, start);
    CarriedCandleIsCaughtUp(s2, |s.tasks|, e, c);
    ConsRun(s2, e, []);
    assert [e] + [] == [e] && [] + [c] == [c];
    SessionRunLeads(s, start, s2, [e]);
  }

  /** A new session is free of repeats, whatever calm payloads it gets, exactly when the cache carries no
      closed candle of its symbol as it starts. */
  lemma NewSessionLaw(s: Sys, start: Event)
    requires Inv(s) && GateInv(s) && FeedSound(s) && Launches(s, start)
    ensures NothingCarried(s.feed, Upper(start.symbol))
            <==> forall events :: Calm(events, |s.tasks|) ==> OnlyAnnounced(s, start, events)
  {
    if NothingCarried(s.feed, Upper(start.symbol)) {
      forall events | Calm(events, |s.tasks|)
        ensures OnlyAnnounced(s, start, events)
      {
        NewSessionExactlyOnce(s, start, events);
      }
    } else {
      var k :| k in s.feed && Upper(k) == Upper(start.symbol) && s.feed[k].candle.Some? && s.feed[k].candle.value.isClosed;
      var trade := TradeEvent(Trade(k, 0, 0.0, 0.0, 0));
      var e := Deliver(|s.tasks|, trade, 0, NoCycle, "", NO_WRITES);
      NewSessionRepeatsCarriedCandle(s, start, e, s.feed[k].candle.value);
      assert Announced(e, Upper(start.symbol)) == [] && ClosedKlines([e][1..], Upper(start.symbol)) == [];
      assert ClosedKlines([e], Upper(start.symbol)) == [];
      assert Calm([e], |s.tasks|) && !OnlyAnnounced(s, start, [e]);
    }
  }

  /** In every process, at every start: a run from the beginning meets the hypotheses of the law. */
  lemma LawAppliesToEveryRun(before: seq<Event>, start: Event)
    requires Possible(FRESH, before) && Launches(After(FRESH, before), start)
    ensures var s := After(FRESH, before);
      NothingCarried(s.feed, Upper(start.symbol))
      <==> forall events :: Calm(events, |s.tasks|) ==> OnlyAnnounced(s, start, events)
  {
    FreshInv();
    RunKeepsGate(FRESH, before);
    RunKeepsFeedSound(FRESH, before);
    NewSessionLaw(After(FRESH, before), start);
  }
}
