/** What every step and every run of the runtime keeps: one task at most, matching state and mode, and
    a task behind every running or paused session that was not recovered. */
module RuntimeLifecycle {
  import opened Prelude
  import opened MarketData
  import opened RuntimeModel

  predicate HasLiveTask(s: Sys) {
    exists i :: 0 <= i < |s.tasks| && Live(s.tasks[i])
  }

  /** The invariant that holds whatever the storage does. */
  ghost predicate Inv(s: Sys) {
    && Matching(s.status.state, s.status.mode)
    && (s.session.Some? ==> Matching(s.session.value.state, s.session.value.mode))
    && (s.status.recovered ==> s.status.state != Running && s.stopping.None?)
    && (forall i :: 0 <= i < |s.tasks| && Live(s.tasks[i]) ==> OwnedTask(s, i))
    && (s.task.Some? ==> s.stopping.None? && s.task.value < |s.tasks| && Live(s.tasks[s.task.value]))
    && (s.stopping.Some? ==> StopInProgress(s, s.stopping.value.task))
  }

  /** A live task belongs to the active session, and is held either by the runtime or by a `stop`. */
  ghost predicate OwnedTask(s: Sys, i: nat)
    requires i < |s.tasks|
  {
    && Active(s.status.state) && !s.status.recovered && s.runner.Some?
    && s.status.symbol == Some(s.tasks[i].symbol)
    && if s.tasks[i].phase.CancelRequested? then s.stopping.Some? && s.stopping.value.task == i
       else s.task == Some(i)
  }

  ghost predicate StopInProgress(s: Sys, t: nat) {
    && t < |s.tasks|
    && (s.tasks[t].phase.CancelRequested? || s.tasks[t].phase.Finished?)
    && (s.tasks[t].phase == Finished(true) ==> !Active(s.status.state))
  }

  /** At most one task is live at any time. */
  lemma OneLiveTask(s: Sys, i: nat, j: nat)
    requires Inv(s)
    requires i < |s.tasks| && j < |s.tasks| && Live(s.tasks[i]) && Live(s.tasks[j])
    ensures i == j
  {
    assert OwnedTask(s, i) && OwnedTask(s, j);
  }

  /** With the lock free, a live task is the one the runtime refers to. */
  lemma LiveTaskIsReferenced(s: Sys)
    requires Inv(s)
    ensures HasLiveTask(s) ==> !s.status.recovered
    ensures HasLiveTask(s) && s.stopping.None? ==> TaskRunning(s)
    ensures TaskRunning(s) ==> HasLiveTask(s) && OwnedTask(s, s.task.value)
  {
    if HasLiveTask(s) {
      var i :| 0 <= i < |s.tasks| && Live(s.tasks[i]);
      assert OwnedTask(s, i);
    }
  }

  ghost predicate OnlyLive(s: Sys, t: nat) {
    forall i :: 0 <= i < |s.tasks| && Live(s.tasks[i]) ==> i == t
  }

  /** While the lock is free, an active session that was not recovered has its task. */
  ghost predicate Orderly(s: Sys) {
    s.stopping.None? && Active(s.status.state) && !s.status.recovered ==> HasLiveTask(s)
  }

  lemma FreshInv()
    ensures Inv(FRESH) && Orderly(FRESH)
  {
  }

  lemma EndTaskInv(s: Sys, t: nat, w: Writes)
    requires t < |s.tasks| && Live(s.tasks[t]) && s.tasks[t].phase != Created
    requires OnlyLive(s, t)
    requires Matching(s.status.state, s.status.mode)
    requires s.session.Some? ==> Matching(s.session.value.state, s.session.value.mode)
    requires s.stopping.Some? ==> s.stopping.value.task == t && !s.status.recovered
    requires s.status.recovered ==> s.status.state != Running
    ensures Inv(EndTask(s, t, w))
    ensures !Active(EndTask(s, t, w).status.state)
  {
    var s' := EndTask(s, t, w);
    assert forall i :: 0 <= i < |s.tasks| && i != t ==> s'.tasks[i] == s.tasks[i];
  }

  lemma StartKeepsInv(s: Sys, e: Event)
    requires Inv(s) && e.Start? && Enabled(s, e)
    ensures Inv(DoStart(s, e))
  {
    if StartAccepted(s, Upper(e.symbol)) {
      var s' := DoStart(s, e);
      LiveTaskIsReferenced(s);
      if e.w.runLog {
        assert OnlyLive(s', |s.tasks|);
        assert OwnedTask(s', |s.tasks|);
      } else {
        assert s'.tasks == s.tasks;
      }
    }
  }

  lemma StopKeepsInv(s: Sys, e: Event)
    requires Inv(s) && e.Stop? && Enabled(s, e)
    ensures Inv(DoStop(s, e))
  {
    if TaskRunning(s) {
      assert OwnedTask(s, s.task.value);
    } else {
      LiveTaskIsReferenced(s);
      FinishStopInv(s.(task := None), e.thenReset, e.w);
    }
  }

  /** Without live tasks only the matching of states and modes is left to keep. */
  lemma QuietInv(s: Sys)
    requires s.task.None? && s.stopping.None? && !HasLiveTask(s)
    requires Matching(s.status.state, s.status.mode)
    requires s.session.Some? ==> Matching(s.session.value.state, s.session.value.mode)
    requires s.status.recovered ==> s.status.state != Running
    ensures Inv(s)
  {
  }

  lemma FinishStopInv(s: Sys, thenReset: bool, w: Writes)
    requires s.task.None? && !HasLiveTask(s)
    requires s.session.Some? ==> Matching(s.session.value.state, s.session.value.mode)
    ensures Inv(FinishStop(s, thenReset, w))
  {
    FinishStopLeaves(s, thenReset, w);
    QuietInv(FinishStop(s, thenReset, w));
  }

  lemma FinishStopLeaves(s: Sys, thenReset: bool, w: Writes)
    ensures var s' := FinishStop(s, thenReset, w);
      && s'.task == s.task && s'.tasks == s.tasks && s'.stopping.None?
      && s'.status.state == Stopped && s'.status.mode == StoppedMode
      && (s'.session.Some? ==> s'.session == s.session || s'.session.value.state == Stopped)
      && (s'.session.Some? && s'.session != s.session ==> s'.session.value.mode == StoppedMode)
  {
  }

  lemma StopContinuesKeepsInv(s: Sys, e: Event)
    requires Inv(s) && e.StopContinues? && Enabled(s, e)
    ensures Inv(DoStopContinues(s, e))
  {
    assert s.task.None? && !HasLiveTask(s);
    if s.tasks[s.stopping.value.task].phase.raised {
      QuietInv(DoStopContinues(s, e));
    } else {
      FinishStopInv(s, s.stopping.value.thenReset, e.w);
    }
  }

  lemma PauseResumeKeepInv(s: Sys, e: Event)
    requires Inv(s) && (e.Pause? || e.Resume?) && Enabled(s, e)
    ensures Inv(Step(s, e))
  {
    if TaskRunning(s) {
      var i := s.task.value;
      assert OwnedTask(s, i);
      var s' := Step(s, e);
      assert OnlyLive(s, i);
      assert OwnedTask(s', i);
    }
  }

  lemma ManualKeepsInv(s: Sys, e: Event)
    requires Inv(s) && e.Manual? && Enabled(s, e)
    ensures Inv(Step(s, e))
  {
    ManualLeaves(s, e);
    SameOwners(s, Step(s, e));
  }

  lemma ManualLeaves(s: Sys, e: Event)
    requires e.Manual? && Enabled(s, e)
    ensures var s' := Step(s, e);
      && s'.tasks == s.tasks && s'.status == s.status && s'.task == s.task && s'.stopping == s.stopping
      && s'.session == s.session && (s.runner.Some? ==> s'.runner.Some?)
  {
  }

  /** The invariant looks at neither the broker nor the gate. */
  lemma SameOwners(s: Sys, s': Sys)
    requires Inv(s) && s'.tasks == s.tasks && s'.status == s.status && s'.task == s.task
    requires s'.stopping == s.stopping && s'.session == s.session && (s.runner.Some? ==> s'.runner.Some?)
    ensures Inv(s')
  {
    forall i | 0 <= i < |s'.tasks| && Live(s'.tasks[i])
      ensures OwnedTask(s', i)
    {
      assert OwnedTask(s, i);
    }
  }

  /** The assertion at the head of the run loop never fails. */
  lemma RunnerIsThereWhenTaskBegins(s: Sys, e: Event)
    requires Inv(s) && e.TaskBegins? && Enabled(s, e)
    ensures s.runner.Some? && Step(s, e).tasks[e.t].phase == Streaming
    ensures Inv(Step(s, e))
  {
    var s' := Step(s, e);
    assert OwnedTask(s, e.t);
    assert OnlyLive(s, e.t);
  }

  lemma RestartKeepsInv(s: Sys, w: Writes)
    requires Inv(s)
    ensures Inv(DoRestart(s, w))
  {
    QuietInv(DoRestart(s, w));
  }

  /** Every step keeps the invariant, whichever storage writes fail. */
  lemma StepKeepsInv(s: Sys, e: Event)
    requires Inv(s) && Enabled(s, e)
    ensures Inv(Step(s, e))
  {
    match e
    case Start(_, _, _, _, _) => StartKeepsInv(s, e);
    case Stop(_, _) => StopKeepsInv(s, e);
    case StopContinues(_) => StopContinuesKeepsInv(s, e);
    case Pause(_) => PauseResumeKeepInv(s, e);
    case Resume(_) => PauseResumeKeepInv(s, e);
    case Manual(_, _, _) => ManualKeepsInv(s, e);
    case TaskBegins(t) => RunnerIsThereWhenTaskBegins(s, e);
    case Deliver(t, _, _, _, _, _) => DeliverKeepsInv(s, e);
    case StreamEnds(t, w) => EndTaskInv(s, t, w);
    case StreamRaises(t, error, w) => assert OwnedTask(s, t); FailTaskInv(s, t, error, w);
    case CancelArrives(t, w) =>
      assert OwnedTask(s, t);
      if s.tasks[t].phase.started {
        EndTaskInv(s, t, w);
      }
    case CrashAndRestart(w) => RestartKeepsInv(s, w);
  }

  lemma FailTaskInv(s: Sys, t: nat, error: string, w: Writes)
    requires t < |s.tasks| && s.tasks[t].phase.Streaming?
    requires OnlyLive(s, t)
    requires s.session.Some? ==> Matching(s.session.value.state, s.session.value.mode)
    requires s.stopping.None?
    ensures Inv(FailTask(s, t, error, w))
    ensures !Active(FailTask(s, t, error, w).status.state)
  {
    EndTaskInv(s.(status := s.status.(state := Failed, mode := ErrorMode, lastError := Some(error))), t, w);
  }

  lemma DeliverKeepsInv(s: Sys, e: Event)
    requires Inv(s) && e.Deliver? && Enabled(s, e)
    ensures Inv(DoDeliver(s, e))
    ensures !Active(DoDeliver(s, e).status.state) || (HasLiveTask(DoDeliver(s, e)) && DoDeliver(s, e).tasks == s.tasks)
  {
    assert OwnedTask(s, e.t);
    if e.payload.Malformed? {
      FailTaskInv(s, e.t, e.error, e.w);
    } else if !e.payload.Unsupported? {
      var noted := Noted(s, e);
      assert Inv(noted) && noted.tasks == s.tasks && Live(noted.tasks[e.t]);
      if e.cycle.IngestRaises? {
        FailTaskInv(noted, e.t, e.error, e.w);
      } else {
        match Considered(noted.feed[e.payload.Symbol()], s.tasks[e.t].symbol, s.status.state)
        case None =>
        case Some(c) => CycleKeepsInv(noted, e, c);
      }
    }
  }

  lemma CycleKeepsInv(s: Sys, e: Event, c: Candle)
    requires Inv(s) && e.Deliver? && Enabled(s, e) && !e.cycle.IngestRaises?
    ensures Inv(DoCycle(s, e, c))
    ensures !Active(DoCycle(s, e, c).status.state) || (HasLiveTask(DoCycle(s, e, c)) && DoCycle(s, e, c).tasks == s.tasks)
  {
    var offered := s.(offered := s.offered + [c]);
    assert OwnedTask(s, e.t);
    assert Live(s.tasks[e.t]);
    if PassesGate(s.gate, s.tasks[e.t].symbol, c) {
      var handed := offered.(cycled := s.cycled + [c]);
      match e.cycle
      case ProcessRaises(b) => FailTaskInv(handed.(runner := Some(b)), e.t, e.error, e.w);
      case SignalRaises(b) => FailTaskInv(handed.(runner := Some(b)), e.t, e.error, e.w);
      case NoCycle =>
      case Completed(b) =>
    }
  }

  /** The invariant holds after every run from a state that has it, in particular after every run of a
      fresh process with empty storage, with any failures and any number of crashes. */
  lemma {:induction false} RunKeepsInv(s: Sys, events: seq<Event>)
    requires Inv(s) && Possible(s, events)
    ensures Inv(After(s, events))
    decreases events
  {
    if events != [] {
      StepKeepsInv(s, events[0]);
      RunKeepsInv(Step(s, events[0]), events[1..]);
    }
  }

  /** An accepted start whose session-log write raises: the status says running, but no task was made. */
  predicate OrphaningStart(s: Sys, e: Event) {
    e.Start? && StartAccepted(s, Upper(e.symbol)) && !e.w.runLog
  }

  lemma StartOrderly(s: Sys, e: Event)
    requires Inv(s) && Orderly(s) && e.Start? && Enabled(s, e)
    ensures Orderly(DoStart(s, e)) <==> !OrphaningStart(s, e)
  {
    var s' := DoStart(s, e);
    if StartAccepted(s, Upper(e.symbol)) {
      LiveTaskIsReferenced(s);
      if e.w.runLog {
        assert Live(s'.tasks[|s.tasks|]);
      } else {
        assert s'.tasks == s.tasks;
      }
    }
  }

  lemma ControlOrderly(s: Sys, e: Event)
    requires Inv(s) && Orderly(s) && Enabled(s, e)
    requires e.Pause? || e.Resume? || e.Manual?
    ensures Orderly(Step(s, e))
  {
    var s' := Step(s, e);
    assert s'.tasks == s.tasks && s'.stopping == s.stopping;
    LiveTaskIsReferenced(s);
    assert HasLiveTask(s) ==> HasLiveTask(s') by {
      if HasLiveTask(s) {
        assert Live(s'.tasks[s.task.value]);
      }
    }
  }

  lemma TaskStepOrderly(s: Sys, e: Event)
    requires Inv(s) && Enabled(s, e)
    requires e.TaskBegins? || e.Deliver? || e.StreamEnds? || e.StreamRaises? || e.CancelArrives?
    ensures Orderly(Step(s, e))
  {
    assert OwnedTask(s, e.t);
    match e
    case TaskBegins(t) => RunnerIsThereWhenTaskBegins(s, e); assert Live(Step(s, e).tasks[t]);
    case Deliver(t, _, _, _, _, _) => DeliverKeepsInv(s, e);
    case StreamEnds(t, w) => EndTaskInv(s, t, w);
    case StreamRaises(t, error, w) => FailTaskInv(s, t, error, w);
    case CancelArrives(t, w) =>
      if s.tasks[t].phase.started {
        EndTaskInv(s, t, w);
      }
  }

  lemma StopOrderly(s: Sys, e: Event)
    requires Inv(s) && Enabled(s, e) && (e.Stop? || e.StopContinues? || e.CrashAndRestart?)
    ensures Orderly(Step(s, e))
  {
  }

  /** The only step that can leave an active session without its task is such a start, and it always does. */
  lemma OrderlyUnlessStartLogFails(s: Sys, e: Event)
    requires Inv(s) && Orderly(s) && Enabled(s, e)
    ensures Orderly(Step(s, e)) <==> !OrphaningStart(s, e)
  {
    match e
    case Start(_, _, _, _, _) => StartOrderly(s, e);
    case Pause(_) => ControlOrderly(s, e);
    case Resume(_) => ControlOrderly(s, e);
    case Manual(_, _, _) => ControlOrderly(s, e);
    case Stop(_, _) => StopOrderly(s, e);
    case StopContinues(_) => StopOrderly(s, e);
    case CrashAndRestart(_) => StopOrderly(s, e);
    case TaskBegins(_) => TaskStepOrderly(s, e);
    case Deliver(_, _, _, _, _, _) => TaskStepOrderly(s, e);
    case StreamEnds(_, _) => TaskStepOrderly(s, e);
    case StreamRaises(_, _, _) => TaskStepOrderly(s, e);
    case CancelArrives(_, _) => TaskStepOrderly(s, e);
  }

  predicate StartLogsSucceed(events: seq<Event>) {
    forall i :: 0 <= i < |events| && events[i].Start? ==> events[i].w.runLog
  }

  lemma {:induction false} RunStaysOrderly(s: Sys, events: seq<Event>)
    requires Inv(s) && Orderly(s) && Possible(s, events) && StartLogsSucceed(events)
    ensures Inv(After(s, events)) && Orderly(After(s, events))
    decreases events
  {
    if events != [] {
      StepKeepsInv(s, events[0]);
      OrderlyUnlessStartLogFails(s, events[0]);
      RunStaysOrderly(Step(s, events[0]), events[1..]);
    }
  }

  /** The lifecycle law, over every interleaving of operations, stream deliveries, failures and
      crashes: whenever the lock is free, a live task exists exactly when the session is running or
      paused and was not recovered; the runtime then holds that very task, and only that one. */
  lemma LifecycleLaw(events: seq<Event>)
    requires Possible(FRESH, events) && StartLogsSucceed(events)
    ensures var s := After(FRESH, events);
      && Matching(s.status.state, s.status.mode)
      && (s.stopping.None? ==> (HasLiveTask(s) <==> Active(s.status.state) && !s.status.recovered))
      && (s.stopping.None? && HasLiveTask(s) ==> TaskRunning(s) && OnlyLive(s, s.task.value))
      && (s.status.recovered ==> s.status.state != Running)
  {
    FreshInv();
    RunStaysOrderly(FRESH, events);
    var s := After(FRESH, events);
    forall i | 0 <= i < |s.tasks| && Live(s.tasks[i])
      ensures OwnedTask(s, i)
    {
    }
  }

  /** While `stop` waits for its task, only that task's cancellation, the rest of `stop`, or a crash can happen. */
  lemma StopLocksOthersOut(s: Sys, e: Event)
    requires Inv(s) && s.stopping.Some? && Enabled(s, e)
    ensures e.CrashAndRestart? || e.StopContinues? || (e.CancelArrives? && e.t == s.stopping.value.task)
  {
    if e.TaskBegins? || e.Deliver? || e.StreamEnds? || e.StreamRaises? || e.CancelArrives? {
      assert OwnedTask(s, e.t);
    }
  }

  /** A session recovered as paused is left only through start, stop or reset (or another crash). In
      particular `resume` does nothing to it, although the notice shown with it asks for a manual resume. */
  lemma RecoveredPauseIsSticky(s: Sys, e: Event)
    requires Inv(s) && Enabled(s, e)
    requires s.status.recovered && s.status.state == Paused
    requires !e.Start? && !e.Stop? && !e.CrashAndRestart?
    ensures Step(s, e).status == s.status
    ensures e.Resume? || e.Pause? ==> Step(s, e) == s
  {
    LiveTaskIsReferenced(s);
  }
}
