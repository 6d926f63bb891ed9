/** What `stop` and `reset_session` of a live session achieve when each of their two halves meets its own
    write failures: the block that ends the cancelled loop, and the rest of the call behind it. */
module RuntimeStop {
  import opened Prelude
  import opened RuntimeModel
  import opened RuntimeLifecycle
  import opened RuntimeDurability

  /** What a completed stop (or reset) leaves behind. */
  ghost predicate CleanlyStopped(s: Sys, thenReset: bool, s': Sys) {
    && !HasLiveTask(s') && s'.stopping.None? && s'.task.None?
    && s'.status.state == Stopped && s'.status.mode == StoppedMode
    && (thenReset ==> s'.status == DEFAULT_STATUS && s'.runner.None? && s'.broker.None? && s'.gate == map[]
                      && (s'.session.Some? ==> s'.session.value == Record(DEFAULT_STATUS)))
    && (!thenReset ==> s'.runner == s.runner)
  }

  /** The three steps of stopping a live session, each with its own writes. */
  function StopRun(s: Sys, thenReset: bool, w: Writes, wc: Writes, wk: Writes): seq<Event>
    requires TaskRunning(s)
  {
    [Stop(thenReset, w), CancelArrives(s.task.value, wc), StopContinues(wk)]
  }

  /** The loop had begun, so its final block runs. */
  predicate Begun(s: Sys)
    requires TaskRunning(s)
  {
    s.tasks[s.task.value].phase != Created
  }

  /** The final block of the loop raises out of its log write. */
  predicate EndRaises(s: Sys, wc: Writes)
    requires TaskRunning(s)
  {
    Begun(s) && s.status.sessionId.Some? && !wc.runLog
  }

  function Cancelled(s: Sys, thenReset: bool): Sys
    requires TaskRunning(s)
  {
    DoStop(s, Stop(thenReset, NO_WRITES))
  }

  function Ended(s: Sys, thenReset: bool, wc: Writes): Sys
    requires TaskRunning(s)
  {
    DoCancelArrives(Cancelled(s, thenReset), s.task.value, wc)
  }

  /** The state between the two halves. */
  lemma EndedFacts(s: Sys, thenReset: bool, wc: Writes)
    requires Inv(s) && s.stopping.None? && TaskRunning(s)
    ensures var t, s2 := s.task.value, Ended(s, thenReset, wc);
      && s2.tasks[t].phase == Finished(EndRaises(s, wc)) && !HasLiveTask(s2) && s2.task.None?
      && s2.stopping == Some(StopFrame(t, thenReset))
      && s2.runner == s.runner && s2.broker == s.broker && s2.gate == s.gate
      && s2.status.sessionId == s.status.sessionId && s2.status.state != Failed
      && (Begun(s) ==> s2.status.state == Stopped && s2.status.mode == StoppedMode)
      && s2.session == (if Begun(s) && wc.finalSession && !EndRaises(s, wc) then Some(Record(s2.status)) else s.session)
  {
    assert OwnedTask(s, s.task.value);
    OnlyTheLoopIsLive(s);
    EndedState(s, thenReset, wc);
  }

  lemma EndedState(s: Sys, thenReset: bool, wc: Writes)
    requires TaskRunning(s) && s.status.state != Failed
    ensures var t, s2 := s.task.value, Ended(s, thenReset, wc);
      && s2.tasks == s.tasks[t := Task(s.tasks[t].symbol, Finished(EndRaises(s, wc)))] && s2.task.None?
      && s2.stopping == Some(StopFrame(t, thenReset))
      && s2.runner == s.runner && s2.broker == s.broker && s2.gate == s.gate
      && s2.status.sessionId == s.status.sessionId && s2.status.state != Failed
      && (Begun(s) ==> s2.status.state == Stopped && s2.status.mode == StoppedMode)
      && s2.session == (if Begun(s) && wc.finalSession && !EndRaises(s, wc) then Some(Record(s2.status)) else s.session)
  {
    CancelledState(s, thenReset);
    if Begun(s) {
      EndTaskState(Cancelled(s, thenReset), s.task.value, wc);
    }
  }

  lemma CancelledState(s: Sys, thenReset: bool)
    requires TaskRunning(s)
    ensures var t, s1 := s.task.value, Cancelled(s, thenReset);
      && s1.tasks == s.tasks[t := Task(s.tasks[t].symbol, CancelRequested(Begun(s)))] && s1.task.None?
      && s1.stopping == Some(StopFrame(t, thenReset)) && s1.status == s.status
      && s1.runner == s.runner && s1.broker == s.broker && s1.gate == s.gate && s1.session == s.session
  {
  }

  lemma EndTaskState(s: Sys, t: nat, w: Writes)
    requires t < |s.tasks| && s.status.state != Failed
    ensures var s', raised := EndTask(s, t, w), s.status.sessionId.Some? && !w.runLog;
      && s'.tasks == s.tasks[t := Task(s.tasks[t].symbol, Finished(raised))] && s'.task.None?
      && s'.stopping == s.stopping
      && s'.runner == s.runner && s'.broker == s.broker && s'.gate == s.gate
      && s'.status == s.status.(state := Stopped, mode := StoppedMode)
      && s'.session == (if w.finalSession && !raised then Some(Record(s'.status)) else s.session)
  {
  }

  lemma OnlyTheLoopIsLive(s: Sys)
    requires Inv(s) && TaskRunning(s)
    ensures forall i :: 0 <= i < |s.tasks| && Live(s.tasks[i]) ==> i == s.task.value
  {
    forall i | 0 <= i < |s.tasks| && Live(s.tasks[i])
      ensures i == s.task.value
    {
      OneLiveTask(s, i, s.task.value);
    }
  }

  lemma StopSteps(s: Sys, thenReset: bool, w: Writes, wc: Writes)
    requires s.stopping.None? && TaskRunning(s)
    ensures Enabled(s, Stop(thenReset, w)) && Step(s, Stop(thenReset, w)) == Cancelled(s, thenReset)
    ensures Enabled(Cancelled(s, thenReset), CancelArrives(s.task.value, wc))
    ensures Step(Cancelled(s, thenReset), CancelArrives(s.task.value, wc)) == Ended(s, thenReset, wc)
  {
  }

  /** Where the run leads, whatever the writes do. */
  lemma StopRunLeads(s: Sys, thenReset: bool, w: Writes, wc: Writes, wk: Writes)
    requires Inv(s) && s.stopping.None? && TaskRunning(s)
    ensures var run := StopRun(s, thenReset, w, wc, wk);
      && Possible(s, run) && After(s, run) == Final(s, thenReset, wc, wk)
  {
    StopSteps(s, thenReset, w, wc);
    FinalStep(s, thenReset, wc, wk);
    RunOfThree(s, Stop(thenReset, w), CancelArrives(s.task.value, wc), StopContinues(wk));
  }

  lemma FinalStep(s: Sys, thenReset: bool, wc: Writes, wk: Writes)
    requires Inv(s) && s.stopping.None? && TaskRunning(s)
    ensures Enabled(Ended(s, thenReset, wc), StopContinues(wk))
    ensures Step(Ended(s, thenReset, wc), StopContinues(wk)) == Final(s, thenReset, wc, wk)
  {
    EndedFacts(s, thenReset, wc);
  }

  function Final(s: Sys, thenReset: bool, wc: Writes, wk: Writes): Sys
    requires TaskRunning(s)
  {
    if EndRaises(s, wc) then Ended(s, thenReset, wc).(stopping := None)
    else FinishStop(Ended(s, thenReset, wc), thenReset, wk)
  }

  /** A plain stop always completes in memory, whichever writes fail. A reset completes exactly when neither
      half's log write raises and both deletes succeed. */
  lemma StopCompletes(s: Sys, thenReset: bool, w: Writes, wc: Writes, wk: Writes)
    requires Inv(s) && s.stopping.None? && TaskRunning(s)
    ensures var run := StopRun(s, thenReset, w, wc, wk);
      && Possible(s, run)
      && (CleanlyStopped(s, thenReset, After(s, run)) <==>
          !thenReset || (!EndRaises(s, wc) && (s.status.sessionId.Some? ==> wk.runLog) && BothClear(wk)))
  {
    StopRunLeads(s, thenReset, w, wc, wk);
    FinalIsClean(s, thenReset, wc, wk);
  }

  lemma FinalIsClean(s: Sys, thenReset: bool, wc: Writes, wk: Writes)
    requires Inv(s) && s.stopping.None? && TaskRunning(s)
    ensures CleanlyStopped(s, thenReset, Final(s, thenReset, wc, wk)) <==>
      !thenReset || (!EndRaises(s, wc) && (s.status.sessionId.Some? ==> wk.runLog) && BothClear(wk))
  {
    EndedFacts(s, thenReset, wc);
    EndedKeepsSymbol(s, thenReset, wc);
    if !EndRaises(s, wc) {
      FinishedStop(s, Ended(s, thenReset, wc), thenReset, wk);
    }
  }

  lemma EndedKeepsSymbol(s: Sys, thenReset: bool, wc: Writes)
    requires Inv(s) && TaskRunning(s)
    ensures Ended(s, thenReset, wc).status.symbol.Some?
  {
    LiveTaskIsReferenced(s);
  }

  lemma FinishedStop(before: Sys, s: Sys, thenReset: bool, wk: Writes)
    requires s.task.None? && !HasLiveTask(s) && s.runner == before.runner
    ensures CleanlyStopped(before, thenReset, FinishStop(s, thenReset, wk))
            <==> !thenReset || ResetDone(s, wk)
  {
  }

  /** A reset of the stopped runtime gets to its end, or raises at a delete where there was nothing to delete. */
  predicate ResetDone(s: Sys, w: Writes) {
    (GoesOnToReset(s, true, w) && BothClear(w)) || NothingToReset(s, w)
  }

  /** The status is the default one but for its state and no row holds anything else. */
  predicate NothingToReset(s: Sys, w: Writes) {
    && s.status.(state := Stopped, mode := StoppedMode) == DEFAULT_STATUS
    && s.broker.None? && (s.runner.Some? ==> !w.broker)
    && (w.session || w.clearSession || s.session.None? || s.session.value == Record(DEFAULT_STATUS))
  }

  /** The same without a live loop, as after a restart or in the error state: one step, no second log write.
      In particular a reset can be repeated until it completes. */
  lemma IdleStopCompletes(s: Sys, thenReset: bool, w: Writes)
    requires Inv(s) && s.stopping.None? && !TaskRunning(s)
    ensures Enabled(s, Stop(thenReset, w))
    ensures CleanlyStopped(s, thenReset, Step(s, Stop(thenReset, w))) <==> !thenReset || ResetDone(s, w)
  {
    LiveTaskIsReferenced(s);
    FinishedStop(s, s.(task := None), thenReset, w);
  }

  /** A reset whose log write raises forgets nothing: the broker and the gate stay in memory, and the durable
      broker is the old one or the live one. */
  lemma FailedResetForgetsNothing(s: Sys, w: Writes, wc: Writes, wk: Writes)
    requires Inv(s) && s.stopping.None? && TaskRunning(s)
    requires EndRaises(s, wc) || (s.status.sessionId.Some? && !wk.runLog)
    ensures var run := StopRun(s, true, w, wc, wk);
      && Possible(s, run)
      && After(s, run).status.state == Stopped && After(s, run).status.sessionId == s.status.sessionId
      && After(s, run).runner == s.runner && After(s, run).gate == s.gate
      && After(s, run).broker ==
         if !EndRaises(s, wc) && s.runner.Some? && wk.broker then Some(s.runner.value) else s.broker
  {
    EndedFacts(s, true, wc);
    StopRunLeads(s, true, w, wc, wk);
  }

  /** A reset that raises at a delete has already forgotten the broker and the gate in memory, but the durable
      broker row stays, and the session row too when its own delete failed. A restart brings the broker back;
      a new start instead goes on with an initial broker and overwrites the row. */
  lemma ResetRaisesAtClear(s: Sys, w: Writes, wc: Writes, wk: Writes, next: Event)
    requires Inv(s) && s.stopping.None? && TaskRunning(s) && SoundRecord(s)
    requires !EndRaises(s, wc) && (s.status.sessionId.Some? ==> wk.runLog) && !BothClear(wk)
    requires next.Start? && Upper(next.symbol) != ""
    ensures var run, kept := StopRun(s, true, w, wc, wk), if wk.broker then s.runner else s.broker;
      && Possible(s, run)
      && var failed := After(s, run);
      && failed.status.state == Stopped && failed.status.sessionId == s.status.sessionId
      && failed.runner.None? && failed.gate == map[] && failed.broker == kept
      && (if wk.clearSession then failed.session.None?
          else failed.session == (if wk.session || (Begun(s) && wc.finalSession) then Some(Record(failed.status))
                                  else s.session))
      && DoRestart(failed, next.w).runner == kept
      && Enabled(failed, next) && Step(failed, next).runner == Some(INITIAL_BROKER)
      && Step(failed, next).broker == (if next.w.broker then Some(INITIAL_BROKER) else kept)
  {
    assert OwnedTask(s, s.task.value);
    EndedFacts(s, true, wc);
    StopRunLeads(s, true, w, wc, wk);
    ClearRaises(Ended(s, true, wc), wk);
    FreshStartBrokers(Final(s, true, wc, wk), next);
  }

  lemma ClearRaises(s: Sys, wk: Writes)
    requires (s.status.sessionId.Some? ==> wk.runLog) && !BothClear(wk)
    ensures var failed := FinishStop(s, true, wk);
      && failed.status == s.status.(state := Stopped, mode := StoppedMode)
      && failed.runner.None? && failed.gate == map[] && failed.stopping.None?
      && failed.tasks == s.tasks && failed.task == s.task
      && failed.broker == (if s.runner.Some? && wk.broker then Some(s.runner.value) else s.broker)
      && failed.session == (if wk.clearSession then None
                            else if wk.session then Some(Record(failed.status)) else s.session)
  {
  }

  lemma FreshStartBrokers(s: Sys, e: Event)
    requires e.Start? && s.runner.None? && StartAccepted(s, Upper(e.symbol))
    ensures DoStart(s, e).runner == Some(INITIAL_BROKER)
    ensures DoStart(s, e).broker == (if e.w.broker then Some(INITIAL_BROKER) else s.broker)
  {
  }

  /** Some write of the stop recorded that the session ended. */
  predicate StopRecorded(s: Sys, thenReset: bool, wc: Writes, wk: Writes)
    requires TaskRunning(s)
  {
    && !EndRaises(s, wc)
    && (wk.session || (Begun(s) && wc.finalSession) || (GoesOnToReset(s, thenReset, wk) && wk.clearSession))
  }

  /** Whether a stopped session stays stopped over a restart: exactly when one of the two halves recorded its
      end. Otherwise it comes back paused, with the notice, although the user stopped or reset it. In
      particular nothing is recorded once the loop's log write raises. */
  lemma StoppedSessionComesBack(s: Sys, thenReset: bool, w: Writes, wc: Writes, wk: Writes, wr: Writes)
    requires Inv(s) && s.stopping.None? && TaskRunning(s) && SessionSynced(s)
    ensures var run := StopRun(s, thenReset, w, wc, wk);
      && Possible(s, run) && After(s, run).status.state == Stopped
      && var back := DoRestart(After(s, run), wr).status;
         if StopRecorded(s, thenReset, wc, wk) then back.state == Stopped && !back.resumeNotice
         else back.state == Paused && back.resumeNotice
  {
    StopRunLeads(s, thenReset, w, wc, wk);
    FinalRow(s, thenReset, wc, wk);
    RestartReadsRow(Final(s, thenReset, wc, wk), wr);
  }

  lemma FinalRow(s: Sys, thenReset: bool, wc: Writes, wk: Writes)
    requires Inv(s) && s.stopping.None? && TaskRunning(s) && SessionSynced(s)
    ensures var final := Final(s, thenReset, wc, wk);
      && final.status.state == Stopped
      && (StopRecorded(s, thenReset, wc, wk) ==> final.session.Some? ==> final.session.value.state == Stopped)
      && (!StopRecorded(s, thenReset, wc, wk) ==> RowActive(final.session))
  {
    assert OwnedTask(s, s.task.value);
    EndedFacts(s, thenReset, wc);
    FinishedRow(Ended(s, thenReset, wc), thenReset, wk);
  }

  /** Whether the durable row shows an active session. */
  predicate RowActive(session: Option<SessionRecord>) {
    session.Some? && Active(session.value.state)
  }

  lemma FinishedRow(s: Sys, thenReset: bool, wk: Writes)
    ensures FinishStop(s, thenReset, wk).status.state == Stopped
    ensures var row := FinishStop(s, thenReset, wk).session;
      if wk.session || (GoesOnToReset(s, thenReset, wk) && wk.clearSession)
      then row.Some? ==> row.value.state == Stopped
      else row == s.session
  {
  }

  lemma RestartReadsRow(s: Sys, w: Writes)
    ensures var back := DoRestart(s, w).status;
      && (RowActive(s.session) ==> back.state == Paused && back.resumeNotice)
      && (s.session.None? || s.session.value.state == Stopped ==> back.state == Stopped && !back.resumeNotice)
  {
  }
}
