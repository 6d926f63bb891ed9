/** What the user's controls achieve: which step brings about which state, what starting opens, that a pause only
    interrupts processing and a resume takes it up again, and when a manual trade goes through. */
module RuntimeControls {
  import opened Prelude
  import opened MarketData
  import SM = StreamManager
  import opened RuntimeModel
  import opened RuntimeLifecycle
  import opened RuntimeDurability

  // ----- the state diagram -----

  /** The delivery ends the loop with an exception. */
  predicate Raises(s: Sys, e: Event)
    requires e.Deliver? && e.t < |s.tasks|
  {
    || e.payload.Malformed?
    || (e.payload.Carries() && e.cycle.IngestRaises?)
    || (HandedOver(s, e).Some? && (e.cycle.ProcessRaises? || e.cycle.SignalRaises?))
  }

  /** A restart finds an active session in the durable row. */
  predicate Interrupted(s: Sys) {
    s.session.Some? && (s.session.value.state == Running || s.session.value.state == Paused)
  }

  /** An accepted start or resume runs the session. */
  predicate GetsRunning(s: Sys, e: Event)
    requires Enabled(s, e)
  {
    (e.Start? && Upper(e.symbol) != "" && !TaskRunning(s)) || (e.Resume? && TaskRunning(s))
  }

  /** A pause of a live loop, or the recovery of an interrupted session, pauses it. */
  predicate GetsPaused(s: Sys, e: Event)
    requires Enabled(s, e)
  {
    (e.Pause? && TaskRunning(s)) || (e.CrashAndRestart? && Interrupted(s))
  }

  /** An exception of the loop, or the recovery of a failed session, is an error. */
  predicate GetsFailed(s: Sys, e: Event)
    requires Enabled(s, e)
  {
    || e.StreamRaises? || (e.Deliver? && Raises(s, e))
    || (e.CrashAndRestart? && s.session.Some? && s.session.value.state == Failed)
  }

  /** The end of the stream, a begun loop's cancellation, the end of a stop, or a restart without a session. */
  predicate GetsStopped(s: Sys, e: Event)
    requires Enabled(s, e)
  {
    || e.StreamEnds? || (e.CancelArrives? && s.tasks[e.t].phase.started)
    || (e.Stop? && !TaskRunning(s))
    || (e.StopContinues? && !s.tasks[s.stopping.value.task].phase.raised)
    || (e.CrashAndRestart? && (s.session.None? || s.session.value.state == Stopped))
  }

  /** The state diagram, exactly: each step leads to the state named for it, and every other step leaves the
      state alone; the mode follows. */
  lemma StateDiagram(s: Sys, e: Event)
    requires Inv(s) && Enabled(s, e)
    ensures Step(s, e).status.state == NextState(s, e)
    ensures Matching(Step(s, e).status.state, Step(s, e).status.mode)
  {
    StepKeepsInv(s, e);
    match e
    case Deliver(_, _, _, _, _, _) => DeliveryTells(s, e);
    case StreamEnds(t, _) => EndingState(s, e);
    case StreamRaises(t, _, _) => EndingState(s, e);
    case CancelArrives(t, _) => EndingState(s, e);
    case Stop(_, _) => StopState(s, e);
    case StopContinues(_) => StopState(s, e);
    case CrashAndRestart(_) => RestartState(s, e);
    case _ => ControlState(s, e);
  }

  function NextState(s: Sys, e: Event): RunState
    requires Enabled(s, e)
  {
    if GetsRunning(s, e) then Running
    else if GetsPaused(s, e) then Paused
    else if GetsFailed(s, e) then Failed
    else if GetsStopped(s, e) then Stopped
    else s.status.state
  }

  lemma RestartState(s: Sys, e: Event)
    requires e.CrashAndRestart?
    ensures Step(s, e).status.state == NextState(s, e)
  {
  }

  lemma ControlState(s: Sys, e: Event)
    requires Enabled(s, e) && (e.Start? || e.Pause? || e.Resume? || e.Manual? || e.TaskBegins?)
    ensures Step(s, e).status.state == NextState(s, e)
  {
  }

  lemma EndingState(s: Sys, e: Event)
    requires Inv(s) && Enabled(s, e) && (e.StreamEnds? || e.StreamRaises? || e.CancelArrives?)
    ensures Step(s, e).status.state ==
      if e.StreamRaises? then Failed
      else if e.CancelArrives? && !s.tasks[e.t].phase.started then s.status.state
      else Stopped
  {
    assert OwnedTask(s, e.t);
  }

  lemma StopState(s: Sys, e: Event)
    requires Inv(s) && Enabled(s, e) && (e.Stop? || e.StopContinues?)
    ensures Step(s, e).status.state == if GetsStopped(s, e) then Stopped else s.status.state
  {
    if e.Stop? {
      FinishStopLeaves(s.(task := None), e.thenReset, e.w);
    } else {
      FinishStopLeaves(s, s.stopping.value.thenReset, e.w);
    }
  }

  /** What a delivery does to the status: it notes the time of its event, and an exception ends the session in the
      error state with its message; nothing else changes. */
  lemma DeliveryTells(s: Sys, e: Event)
    requires Inv(s) && Enabled(s, e) && e.Deliver?
    ensures Step(s, e).status == s.status.(
      lastEventTime := if e.payload.Carries() then Some(e.payload.EventTime()) else s.status.lastEventTime,
      state := if Raises(s, e) then Failed else s.status.state,
      mode := if Raises(s, e) then ErrorMode else s.status.mode,
      lastError := if Raises(s, e) then Some(e.error) else s.status.lastError)
  {
    if e.payload.Carries() {
      CarriedTells(s, e);
    } else {
      FailTells(s, e.t, e.error, e.w);
    }
  }

  lemma NotedTells(s: Sys, e: Event)
    requires e.Deliver? && e.payload.Carries()
    ensures var noted := Noted(s, e);
      && noted.status == s.status.(lastEventTime := Some(e.payload.EventTime()))
      && noted.tasks == s.tasks && noted.gate == s.gate
  {
  }

  lemma CarriedTells(s: Sys, e: Event)
    requires Enabled(s, e) && e.Deliver? && e.payload.Carries()
    ensures var noted := s.status.(lastEventTime := Some(e.payload.EventTime()));
      DoDeliver(s, e).status ==
        if Raises(s, e) then noted.(state := Failed, mode := ErrorMode, lastError := Some(e.error)) else noted
  {
    var noted := Noted(s, e);
    NotedTells(s, e);
    FailTells(noted, e.t, e.error, e.w);
    if !e.cycle.IngestRaises? {
      match Considered(noted.feed[e.payload.Symbol()], s.tasks[e.t].symbol, s.status.state)
      case None =>
      case Some(c) => CycleTells(noted, e, c);
    }
  }

  lemma FailTells(s: Sys, t: nat, error: string, w: Writes)
    requires t < |s.tasks|
    ensures FailTask(s, t, error, w).status == s.status.(state := Failed, mode := ErrorMode, lastError := Some(error))
  {
  }

  lemma CycleTells(s: Sys, e: Event, c: Candle)
    requires e.Deliver? && e.t < |s.tasks| && !e.cycle.IngestRaises?
    ensures DoCycle(s, e, c).status ==
      if PassesGate(s.gate, s.tasks[e.t].symbol, c) && (e.cycle.ProcessRaises? || e.cycle.SignalRaises?)
      then s.status.(state := Failed, mode := ErrorMode, lastError := Some(e.error))
      else s.status
  {
    if e.cycle.ProcessRaises? || e.cycle.SignalRaises? {
      var handed := s.(offered := s.offered + [c], cycled := s.cycled + [c], runner := Some(e.cycle.after));
      FailTells(handed, e.t, e.error, e.w);
    }
  }

  // ----- starting -----

  /** A start is rejected, and changes nothing, exactly without a symbol or while any loop is live. An accepted one
      opens a session of its own in which nothing of the last one is left but the broker, or an initial broker
      of ten thousand, and creates the loop unless its log write raises. */
  lemma StartOpens(s: Sys, e: Event)
    requires Inv(s) && Enabled(s, e) && e.Start?
    ensures Upper(e.symbol) == "" || HasLiveTask(s) ==> Step(s, e) == s
    ensures Upper(e.symbol) != "" && !HasLiveTask(s) ==>
      var s' := Step(s, e);
      && s'.status == Status(Running, AutoPaper, Some(Upper(e.symbol)), Some(e.sessionId), Some(e.now), None, None, false,
           s.runner.Some? && |s.runner.value.positions| > 0, false, e.profile)
      && s'.runner == (if s.runner.Some? then s.runner else Some(BrokerState(map["USDT" := 10000.0], map[], 0.0)))
      && s'.gate == map[] && s'.feed == s.feed && s'.stopping.None?
      && (if e.w.runLog then s'.task == Some(|s.tasks|) && s'.tasks == s.tasks + [Task(Upper(e.symbol), Created)]
          else s'.task == s.task && s'.tasks == s.tasks)
  {
    LiveTaskIsReferenced(s);
  }

  // ----- pausing and resuming -----

  /** A resume undoes a pause: status, loop, broker, gate, cache and what was processed are as before. */
  lemma ResumeUndoesPause(s: Sys, w: Writes, w': Writes)
    requires Inv(s) && s.stopping.None? && TaskRunning(s) && s.status.state == Running
    ensures var paused := Step(s, Pause(w));
      && Enabled(s, Pause(w)) && Enabled(paused, Resume(w'))
      && paused.status == s.status.(state := Paused, mode := PausedMode) && TaskRunning(paused)
      && Step(paused, Resume(w')).(session := s.session) == s
      && (w'.session ==> Step(paused, Resume(w')).session == Some(Record(s.status)))
  {
    assert OwnedTask(s, s.task.value);
  }

  /** Without a live loop neither changes anything. */
  lemma ControlsNeedTheLoop(s: Sys, e: Event)
    requires Inv(s) && Enabled(s, e) && (e.Pause? || e.Resume?) && !HasLiveTask(s)
    ensures Step(s, e) == s
  {
    LiveTaskIsReferenced(s);
  }

  predicate Restarts(e: Event) {
    e.Start? || e.Resume? || e.CrashAndRestart?
  }

  lemma PausedDelivery(s: Sys, e: Event)
    requires Inv(s) && Enabled(s, e) && e.Deliver? && s.status.state != Running
    ensures Step(s, e).cycled == s.cycled && Step(s, e).offered == s.offered
    ensures Step(s, e).gate == s.gate && Step(s, e).runner == s.runner
  {
    assert OwnedTask(s, e.t);
  }

  lemma PausedEnding(s: Sys, e: Event)
    requires Enabled(s, e) && !e.Deliver? && !Restarts(e)
    ensures Step(s, e).cycled == s.cycled && Step(s, e).offered == s.offered
  {
    match e
    case Stop(thenReset, w) => StopObserves(s.(task := None), thenReset, w);
    case StopContinues(w) => StopObserves(s, s.stopping.value.thenReset, w);
    case _ =>
  }

  lemma StopObserves(s: Sys, thenReset: bool, w: Writes)
    ensures FinishStop(s, thenReset, w).cycled == s.cycled && FinishStop(s, thenReset, w).offered == s.offered
  {
  }

  /** Whatever is not running processes nothing: over any run without a start, a resume or a restart no candle is
      considered or handed over, however much the stream delivers, and the session does not run again. */
  lemma {:induction false} PausedIsIdle(s: Sys, events: seq<Event>)
    requires Inv(s) && Possible(s, events) && s.status.state != Running
    requires forall i :: 0 <= i < |events| ==> !Restarts(events[i])
    ensures After(s, events).cycled == s.cycled && After(s, events).offered == s.offered
    ensures After(s, events).status.state != Running
    decreases events
  {
    if events != [] {
      var e := events[0];
      StepKeepsInv(s, e);
      StateDiagram(s, e);
      if e.Deliver? {
        PausedDelivery(s, e);
      } else {
        PausedEnding(s, e);
      }
      PausedIsIdle(Step(s, e), events[1..]);
    }
  }

  // ----- trading by hand -----

  /** A manual trade goes through exactly for the session's own symbol, with a runner, while the session is not
      stopped; otherwise it changes nothing at all, and it never changes more than the broker. */
  lemma ManualNeedsSession(s: Sys, e: Event)
    requires Enabled(s, e) && e.Manual?
    ensures var own := Upper(e.symbol) != "" && s.status.symbol == Some(Upper(e.symbol));
      if own && s.runner.Some? && (s.status.state == Running || s.status.state == Paused || s.status.state == Failed)
      then Step(s, e) == s.(runner := Some(e.trade.after),
             broker := if e.trade.TradeReturns? && e.w.broker then Some(e.trade.after) else s.broker)
      else Step(s, e) == s
  {
  }

  // ----- restarting -----

  /** A restart over any durable rows, whatever wrote them: the broker comes back position for position, with the
      initial balances only where none were stored, and an interrupted session is paused with the notice. */
  lemma RestartReads(s: Sys, w: Writes)
    ensures var s' := Step(s, CrashAndRestart(w));
      && Enabled(s, CrashAndRestart(w))
      && (s'.runner.Some? <==> s.broker.Some?)
      && (s.broker.Some? ==>
            && s'.runner.value.positions == s.broker.value.positions
            && s'.runner.value.realizedPnl == s.broker.value.realizedPnl
            && s'.runner.value.balances ==
               (if |s.broker.value.balances| > 0 then s.broker.value.balances else map["USDT" := 10000.0]))
      && s'.task.None? && s'.tasks == [] && s'.gate == map[] && s'.feed == map[] && s'.stopping.None?
      && (s.session.None? ==> s'.status == DEFAULT_STATUS)
      && (s.session.Some? ==>
            s'.status.recovered && s'.status.brokerRestored == s.broker.Some? && s'.status.resumeNotice == Interrupted(s))
      && s'.broker == s.broker && (s'.session.Some? <==> s.session.Some?)
  {
  }
}
