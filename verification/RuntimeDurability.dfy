/** Crash consistency of the runtime: what the durable broker and session records say about the live ones. */
module RuntimeDurability {
  import opened Prelude
  import opened MarketData
  import opened RuntimeModel
  import opened RuntimeLifecycle

  /** The durable broker record is the live broker (and is absent when there is none). */
  predicate Synced(s: Sys) {
    if s.runner.None? then s.broker.None? else s.broker == Some(s.runner.value)
  }

  /** Durable broker records are only ever written from live brokers, whose balances are not empty. */
  predicate SoundRecord(s: Sys) {
    s.broker.Some? ==> |s.broker.value.balances| != 0
  }

  /** The candle this delivery passes to `process_snapshot`, if any. */
  function HandedOver(s: Sys, e: Event): Option<Candle>
    requires e.Deliver? && e.t < |s.tasks|
  {
    if !e.payload.Carries() || e.cycle.IngestRaises? then None
    else
      match Considered(Noted(s, e).feed[e.payload.Symbol()], s.tasks[e.t].symbol, s.status.state)
      case None => None
      case Some(c) => if PassesGate(s.gate, s.tasks[e.t].symbol, c) then Some(c) else None
  }

  predicate Changes(s: Sys, after: Broker) {
    s.runner != Some(after)
  }

  /** The step changes the live broker and then raises, or fails to write it; or it is the end of a reset that
      forgets the live broker and then raises at a delete. */
  predicate Lossy(s: Sys, e: Event)
    requires Enabled(s, e)
  {
    match e
    case Start(symbol, _, _, _, w) => StartAccepted(s, Upper(symbol)) && s.runner.None? && !w.broker
    case Manual(symbol, trade, w) =>
      ManualAccepted(s, Upper(symbol)) && Changes(s, trade.after) && (trade.TradeRaises? || !w.broker)
    case Deliver(t, _, _, cycle, _, w) =>
      HandedOver(s, e).Some? && !cycle.NoCycle? && Changes(s, cycle.after) && (!cycle.Completed? || !w.broker)
    case Stop(thenReset, w) => !TaskRunning(s) && BrokerHalfForgotten(s, thenReset, w)
    case StopContinues(w) =>
      !s.tasks[s.stopping.value.task].phase.raised && BrokerHalfForgotten(s, s.stopping.value.thenReset, w)
    case _ => false
  }

  /** The reset drops the live broker from memory and raises before the durable one is deleted. */
  predicate BrokerHalfForgotten(s: Sys, thenReset: bool, w: Writes) {
    GoesOnToReset(s, thenReset, w) && s.runner.Some? && !BothClear(w)
  }

  lemma EndTaskKeepsBrokers(s: Sys, t: nat, error: string, w: Writes)
    requires t < |s.tasks|
    ensures EndTask(s, t, w).runner == s.runner && EndTask(s, t, w).broker == s.broker
    ensures FailTask(s, t, error, w).runner == s.runner && FailTask(s, t, error, w).broker == s.broker
    ensures FailTask(s, t, error, w).status.state == Failed
  {
  }

  /** What a considered candle does to the live and the durable broker, and whether it ends in the error state. */
  lemma CycleBrokers(s: Sys, e: Event, c: Candle)
    requires e.Deliver? && Enabled(s, e) && !e.cycle.IngestRaises?
    ensures var s' := DoCycle(s, e, c);
      if !PassesGate(s.gate, s.tasks[e.t].symbol, c) || e.cycle.NoCycle?
      then s'.runner == s.runner && s'.broker == s.broker
      else (&& s'.runner == Some(e.cycle.after)
            && s'.broker == (if e.cycle.Completed? && e.w.broker then Some(e.cycle.after) else s.broker)
            && (!e.cycle.Completed? ==> s'.status.state == Failed))
  {
    if e.cycle.ProcessRaises? || e.cycle.SignalRaises? {
      var handed := s.(offered := s.offered + [c], cycled := s.cycled + [c], runner := Some(e.cycle.after));
      EndTaskKeepsBrokers(handed, e.t, e.error, e.w);
    }
  }

  /** What a delivery does to the live and the durable broker, and whether it ends in the error state. */
  lemma DeliverBrokers(s: Sys, e: Event)
    requires e.Deliver? && Enabled(s, e)
    ensures var s' := DoDeliver(s, e);
      if HandedOver(s, e).None? || e.cycle.NoCycle?
      then s'.runner == s.runner && s'.broker == s.broker
      else (&& s'.runner == Some(e.cycle.after)
            && s'.broker == (if e.cycle.Completed? && e.w.broker then Some(e.cycle.after) else s.broker)
            && (!e.cycle.Completed? ==> s'.status.state == Failed))
  {
    EndTaskKeepsBrokers(s, e.t, e.error, e.w);
    if e.payload.Carries() {
      var noted := Noted(s, e);
      EndTaskKeepsBrokers(noted, e.t, e.error, e.w);
      if !e.cycle.IngestRaises? {
        match Considered(noted.feed[e.payload.Symbol()], s.tasks[e.t].symbol, s.status.state)
        case None =>
        case Some(c) => CycleBrokers(noted, e, c);
      }
    }
  }

  /** From any state, when the end of a stop or reset leaves the durable broker equal to the live one. */
  predicate StopSyncs(s: Sys, thenReset: bool, w: Writes) {
    if GoesOnToReset(s, thenReset, w)
    then BothClear(w) || (s.broker.None? && (s.runner.Some? ==> !w.broker))
    else if s.runner.Some? then w.broker || s.broker == Some(s.runner.value)
    else s.broker.None?
  }

  lemma FinishStopSyncs(s: Sys, thenReset: bool, w: Writes)
    requires SoundRecord(s)
    ensures Synced(FinishStop(s, thenReset, w)) <==> StopSyncs(s, thenReset, w)
    ensures SoundRecord(FinishStop(s, thenReset, w))
  {
  }

  lemma StopSync(s: Sys, e: Event)
    requires Synced(s) && SoundRecord(s) && Enabled(s, e) && (e.Stop? || e.StopContinues?)
    ensures Synced(Step(s, e)) <==> !Lossy(s, e)
    ensures SoundRecord(Step(s, e))
  {
    if e.Stop? {
      FinishStopSyncs(s.(task := None), e.thenReset, e.w);
    } else {
      FinishStopSyncs(s, s.stopping.value.thenReset, e.w);
    }
  }

  lemma TaskStepBrokers(s: Sys, e: Event)
    requires Enabled(s, e)
    requires e.TaskBegins? || e.StreamEnds? || e.StreamRaises? || e.CancelArrives? || e.Pause? || e.Resume?
    ensures Step(s, e).runner == s.runner && Step(s, e).broker == s.broker
    ensures !e.StreamRaises? && Step(s, e).status.state == Failed ==> s.status.state == Failed
  {
    match e
    case StreamEnds(t, w) => EndTaskKeepsBrokers(s, t, "", w);
    case StreamRaises(t, error, w) => EndTaskKeepsBrokers(s, t, error, w);
    case CancelArrives(t, w) => EndTaskKeepsBrokers(s, t, "", w);
    case _ =>
  }

  /** A step from a synchronised state stays synchronised exactly when it is not lossy. */
  lemma SyncExactlyUnlessLossy(s: Sys, e: Event)
    requires Synced(s) && SoundRecord(s) && Enabled(s, e)
    ensures Synced(Step(s, e)) <==> !Lossy(s, e)
    ensures SoundRecord(Step(s, e))
  {
    match e
    case Deliver(_, _, _, _, _, _) => DeliverBrokers(s, e);
    case Start(_, _, _, _, _) =>
    case Manual(_, _, _) =>
    case CrashAndRestart(_) =>
    case Stop(_, _) => StopSync(s, e);
    case StopContinues(_) => StopSync(s, e);
    case _ => TaskStepBrokers(s, e);
  }

  lemma StepKeepsRecordSound(s: Sys, e: Event)
    requires SoundRecord(s) && Enabled(s, e)
    ensures SoundRecord(Step(s, e))
  {
    match e
    case Deliver(_, _, _, _, _, _) => DeliverBrokers(s, e);
    case Start(_, _, _, _, _) =>
    case Manual(_, _, _) =>
    case CrashAndRestart(_) =>
    case Stop(thenReset, w) => FinishStopSyncs(s.(task := None), thenReset, w);
    case StopContinues(w) => FinishStopSyncs(s, s.stopping.value.thenReset, w);
    case _ => TaskStepBrokers(s, e);
  }

  /** Whatever fails or is lost, no run ever stores a broker that a restart would not bring back as it is. */
  lemma {:induction false} RunKeepsRecordSound(s: Sys, events: seq<Event>)
    requires SoundRecord(s) && Possible(s, events)
    ensures SoundRecord(After(s, events))
    decreases events
  {
    if events != [] {
      StepKeepsRecordSound(s, events[0]);
      RunKeepsRecordSound(Step(s, events[0]), events[1..]);
    }
  }

  predicate NothingLost(s: Sys, events: seq<Event>)
    requires Possible(s, events)
    decreases events
  {
    events == [] || (!Lossy(s, events[0]) && NothingLost(Step(s, events[0]), events[1..]))
  }

  lemma {:induction false} RunKeepsSync(s: Sys, events: seq<Event>)
    requires Synced(s) && SoundRecord(s) && Possible(s, events) && NothingLost(s, events)
    ensures Synced(After(s, events)) && SoundRecord(After(s, events))
    decreases events
  {
    if events != [] {
      SyncExactlyUnlessLossy(s, events[0]);
      RunKeepsSync(Step(s, events[0]), events[1..]);
    }
  }

  /** Crash and restart after any run in which nothing was lost: the new process has the same broker. */
  lemma CrashRebuildsBroker(events: seq<Event>, w: Writes)
    requires Possible(FRESH, events) && NothingLost(FRESH, events)
    ensures DoRestart(After(FRESH, events), w).runner == After(FRESH, events).runner
  {
    RunKeepsSync(FRESH, events);
  }

  // ----- storage that always works -----

  predicate StorageWorks(e: Event) {
    match e
    case Start(_, _, _, _, w) => AllWrites(w)
    case Stop(_, w) => AllWrites(w)
    case StopContinues(w) => AllWrites(w)
    case Pause(w) => AllWrites(w)
    case Resume(w) => AllWrites(w)
    case Manual(_, _, w) => AllWrites(w)
    case TaskBegins(_) => true
    case Deliver(_, _, _, _, _, w) => AllWrites(w)
    case StreamEnds(_, w) => AllWrites(w)
    case StreamRaises(_, _, w) => AllWrites(w)
    case CancelArrives(_, w) => AllWrites(w)
    case CrashAndRestart(w) => AllWrites(w)
  }

  predicate AllWrites(w: Writes) {
    w.session && w.finalSession && w.broker && w.runLog && BothClear(w)
  }

  predicate SyncedUnlessFailed(s: Sys) {
    SoundRecord(s) && (s.runner.None? ==> s.broker.None?) && (s.status.state != Failed ==> Synced(s))
  }

  /** An accepted manual trade that changes the broker and then raises, before it can be written. */
  predicate TradeLost(s: Sys, e: Event) {
    && e.Manual? && ManualAccepted(s, Upper(e.symbol)) && s.status.state != Failed
    && e.trade.TradeRaises? && Changes(s, e.trade.after)
  }

  /** When every write succeeds, a step keeps the durable broker in step outside the error state unless, and
      only unless, it is a manual trade that raises after changing the broker. */
  lemma WorkingStorageStep(s: Sys, e: Event)
    requires Inv(s) && SyncedUnlessFailed(s) && Enabled(s, e) && StorageWorks(e)
    ensures SyncedUnlessFailed(Step(s, e)) <==> !TradeLost(s, e)
  {
    match e
    case Deliver(_, _, _, _, _, _) => WorkingDelivery(s, e);
    case Start(symbol, _, _, _, _) => if StartAccepted(s, Upper(symbol)) { NextWriteHeals(s, e); }
    case Manual(_, _, _) => WorkingManual(s, e);
    case CrashAndRestart(_) => NextWriteHeals(s, e);
    case Stop(_, _) => WorkingStop(s, e);
    case StopContinues(_) => WorkingStop(s, e);
    case _ => TaskStepBrokers(s, e); TaskStepState(s, e);
  }

  lemma WorkingManual(s: Sys, e: Event)
    requires SyncedUnlessFailed(s) && e.Manual? && e.w.broker
    ensures SyncedUnlessFailed(DoManual(s, e)) <==> !TradeLost(s, e)
  {
  }

  lemma WorkingDelivery(s: Sys, e: Event)
    requires Inv(s) && SyncedUnlessFailed(s) && Enabled(s, e) && e.Deliver? && e.w.broker
    ensures SyncedUnlessFailed(Step(s, e))
  {
    assert OwnedTask(s, e.t);
    DeliverBrokers(s, e);
  }

  predicate NoTradeLost(s: Sys, events: seq<Event>)
    requires Possible(s, events)
    decreases events
  {
    events == [] || (!TradeLost(s, events[0]) && NoTradeLost(Step(s, events[0]), events[1..]))
  }

  lemma WorkingStop(s: Sys, e: Event)
    requires Inv(s) && SyncedUnlessFailed(s) && Enabled(s, e) && StorageWorks(e) && (e.Stop? || e.StopContinues?)
    ensures SyncedUnlessFailed(Step(s, e))
  {
    LiveTaskIsReferenced(s);
    if e.Stop? {
      FinishStopSyncs(s.(task := None), e.thenReset, e.w);
    } else {
      FinishStopSyncs(s, s.stopping.value.thenReset, e.w);
    }
  }

  /** Steps of the task and the controls never leave the error state. */
  lemma TaskStepState(s: Sys, e: Event)
    requires Inv(s) && Enabled(s, e)
    requires e.TaskBegins? || e.StreamEnds? || e.StreamRaises? || e.CancelArrives? || e.Pause? || e.Resume?
    ensures s.status.state == Failed ==> Step(s, e).status.state == Failed
  {
    LiveTaskIsReferenced(s);
    if e.TaskBegins? || e.StreamEnds? || e.StreamRaises? || e.CancelArrives? {
      assert OwnedTask(s, e.t);
    }
  }

  /** With working storage, and unless a manual trade raises after changing the broker, the durable broker
      equals the live one at every await point outside the error state, over every interleaving and any
      number of crashes. */
  lemma {:induction false} WorkingStorageKeepsBrokerDurable(s: Sys, events: seq<Event>)
    requires Inv(s) && SyncedUnlessFailed(s) && Possible(s, events)
    requires (forall i :: 0 <= i < |events| ==> StorageWorks(events[i])) && NoTradeLost(s, events)
    ensures SyncedUnlessFailed(After(s, events))
    decreases events
  {
    if events != [] {
      WorkingStorageStep(s, events[0]);
      StepKeepsInv(s, events[0]);
      WorkingStorageKeepsBrokerDurable(Step(s, events[0]), events[1..]);
    }
  }

  /** The error state is a genuine exception, and a bounded one: a cycle that raises loses its own broker
      change and nothing else, so a restart rolls back to the broker the cycle started from. */
  lemma FailedCycleRollsBackOnlyItself(s: Sys, e: Event, w: Writes)
    requires Inv(s) && Synced(s) && Enabled(s, e) && e.Deliver?
    requires HandedOver(s, e).Some? && (e.cycle.ProcessRaises? || e.cycle.SignalRaises?)
    ensures Step(s, e).status.state == Failed
    ensures Step(s, e).runner == Some(e.cycle.after)
    ensures DoRestart(Step(s, e), w).runner == s.runner
  {
    assert OwnedTask(s, e.t);
    DeliverBrokers(s, e);
  }

  /** The steps whose broker write succeeds (for a reset that gets that far, its two deletes instead), and a
      restart, which reads. */
  predicate WritesBroker(s: Sys, e: Event)
    requires Enabled(s, e)
  {
    match e
    case Start(symbol, _, _, _, w) => StartAccepted(s, Upper(symbol)) && w.broker
    case Stop(thenReset, w) => !TaskRunning(s) && StopWrites(s, thenReset, w)
    case StopContinues(w) =>
      !s.tasks[s.stopping.value.task].phase.raised && StopWrites(s, s.stopping.value.thenReset, w)
    case Manual(symbol, trade, w) => ManualAccepted(s, Upper(symbol)) && trade.TradeReturns? && w.broker
    case Deliver(_, _, _, cycle, _, w) => HandedOver(s, e).Some? && cycle.Completed? && w.broker
    case CrashAndRestart(_) => true
    case _ => false
  }

  predicate StopWrites(s: Sys, thenReset: bool, w: Writes) {
    if GoesOnToReset(s, thenReset, w) then BothClear(w)
    else if s.runner.Some? then w.broker
    else s.broker.None?
  }

  /** Whatever was lost before, also the broker in memory, the next successful broker write, by whichever
      operation, or a restart ends the divergence. */
  lemma NextWriteHeals(s: Sys, e: Event)
    requires SoundRecord(s) && Enabled(s, e) && WritesBroker(s, e)
    ensures Synced(Step(s, e))
  {
    match e
    case Stop(_, _) => FinishStopSyncs(s.(task := None), e.thenReset, e.w);
    case StopContinues(_) => FinishStopSyncs(s, s.stopping.value.thenReset, e.w);
    case Deliver(_, _, _, _, _, _) => DeliverBrokers(s, e);
    case _ =>
  }

  // ----- the session record -----

  predicate SessionSynced(s: Sys) {
    s.session == Some(Record(s.status)) || (s.session.None? && s.status == DEFAULT_STATUS)
  }

  lemma SessionStaysSynced(s: Sys, e: Event)
    requires Inv(s) && SessionSynced(s) && Enabled(s, e) && StorageWorks(e)
    ensures SessionSynced(Step(s, e))
  {
    match e
    case Deliver(_, _, _, _, _, _) => DeliverSession(s, e);
    case Stop(_, _) => StopSession(s, e);
    case StopContinues(_) => StopSession(s, e);
    case _ =>
  }

  lemma FinishStopSaves(s: Sys, thenReset: bool, w: Writes)
    requires AllWrites(w)
    ensures SessionSynced(FinishStop(s, thenReset, w))
  {
  }

  lemma StopSession(s: Sys, e: Event)
    requires SessionSynced(s) && Enabled(s, e) && (e.Stop? || e.StopContinues?) && AllWrites(e.w)
    ensures SessionSynced(Step(s, e))
  {
    if e.Stop? {
      FinishStopSaves(s.(task := None), e.thenReset, e.w);
    } else {
      FinishStopSaves(s, s.stopping.value.thenReset, e.w);
    }
  }

  lemma EndTaskSaves(s: Sys, t: nat, error: string, w: Writes)
    requires t < |s.tasks| && AllWrites(w)
    ensures SessionSynced(EndTask(s, t, w)) && SessionSynced(FailTask(s, t, error, w))
  {
  }

  lemma CycleKeepsSession(s: Sys, e: Event, c: Candle)
    requires SessionSynced(s) && e.Deliver? && e.t < |s.tasks| && AllWrites(e.w) && !e.cycle.IngestRaises?
    ensures SessionSynced(DoCycle(s, e, c))
  {
    if e.cycle.ProcessRaises? || e.cycle.SignalRaises? {
      var handed := s.(offered := s.offered + [c], cycled := s.cycled + [c], runner := Some(e.cycle.after));
      EndTaskSaves(handed, e.t, e.error, e.w);
    }
  }

  lemma DeliverSession(s: Sys, e: Event)
    requires SessionSynced(s) && e.Deliver? && Enabled(s, e) && AllWrites(e.w)
    ensures SessionSynced(DoDeliver(s, e))
  {
    EndTaskSaves(s, e.t, e.error, e.w);
    if e.payload.Carries() {
      var noted := Noted(s, e);
      EndTaskSaves(noted, e.t, e.error, e.w);
      if !e.cycle.IngestRaises? {
        match Considered(noted.feed[e.payload.Symbol()], s.tasks[e.t].symbol, s.status.state)
        case None =>
        case Some(c) => CycleKeepsSession(noted, e, c);
      }
    }
  }

  lemma {:induction false} RunKeepsSessionSynced(s: Sys, events: seq<Event>)
    requires Inv(s) && SessionSynced(s) && Possible(s, events)
    requires forall i :: 0 <= i < |events| ==> StorageWorks(events[i])
    ensures SessionSynced(After(s, events))
    decreases events
  {
    if events != [] {
      SessionStaysSynced(s, events[0]);
      StepKeepsInv(s, events[0]);
      RunKeepsSessionSynced(Step(s, events[0]), events[1..]);
    }
  }

  /** How the end of the loop is recorded: exactly when the last session write succeeds and the log write
      before it did not raise. Otherwise the durable row still shows an active session. */
  lemma EndedLoopIsRecorded(s: Sys, e: Event)
    requires Inv(s) && SessionSynced(s) && Enabled(s, e)
    requires e.StreamEnds? || e.StreamRaises? || (e.CancelArrives? && s.tasks[e.t].phase.started)
    ensures !Active(Step(s, e).status.state)
    ensures SessionSynced(Step(s, e)) <==> e.w.finalSession && (s.status.sessionId.Some? ==> e.w.runLog)
    ensures !SessionSynced(Step(s, e)) ==> Step(s, e).session == s.session == Some(Record(s.status))
  {
    assert OwnedTask(s, e.t);
  }

  /** With working storage a crash at any await point loses nothing of the session but its running state:
      the restarted process shows the same symbol, session, times, error and profile, and an active
      session comes back paused. */
  lemma CrashRestoresSession(events: seq<Event>, w: Writes)
    requires Possible(FRESH, events)
    requires forall i :: 0 <= i < |events| ==> StorageWorks(events[i])
    ensures var s := After(FRESH, events);
      var r := DoRestart(s, w).status;
      && r.symbol == s.status.symbol && r.sessionId == s.status.sessionId && r.startedAt == s.status.startedAt
      && r.lastEventTime == s.status.lastEventTime && r.lastError == s.status.lastError && r.profile == s.status.profile
      && r.state == (if Active(s.status.state) then Paused else s.status.state)
      && Matching(r.state, r.mode)
      && (r.recovered <==> s.session.Some?)
      && r.resumeNotice == Active(s.status.state)
  {
    FreshInv();
    RunKeepsInv(FRESH, events);
    RunKeepsSessionSynced(FRESH, events);
  }

  /** Crashing again right after a restart changes nothing more. */
  lemma RestartIsIdempotent(s: Sys, w: Writes, w': Writes)
    requires SoundRecord(s) && w.session && w'.session
    ensures DoRestart(DoRestart(s, w), w') == DoRestart(s, w)
  {
  }
}
