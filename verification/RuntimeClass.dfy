/** `PaperBotRuntime` with its fields, updated in the order the source updates them. Every method is proved
    to take exactly the machine step of RuntimeModel, so the laws proved of the machine are laws of it. */
module RuntimeClass {
  import opened Prelude
  import opened MarketData
  import SM = StreamManager
  import opened RuntimeModel

  /** The two durable rows; a write or delete either happens or raises and leaves the row alone. */
  class StorageRepository {
    var session: Option<SessionRecord>
    var broker: Option<BrokerState>

    constructor ()
      ensures session == None && broker == None
    {
      session := None;
      broker := None;
    }

    method UpsertSession(record: SessionRecord, ok: bool)
      modifies this`session
      ensures session == if ok then Some(record) else old(session)
    {
      if ok {
        session := Some(record);
      }
    }

    method UpsertBroker(record: BrokerState, ok: bool)
      modifies this`broker
      ensures broker == if ok then Some(record) else old(broker)
    {
      if ok {
        broker := Some(record);
      }
    }

    method ClearSession(ok: bool)
      modifies this`session
      ensures session == if ok then None else old(session)
    {
      if ok {
        session := None;
      }
    }

    method ClearBroker(ok: bool)
      modifies this`broker
      ensures broker == if ok then None else old(broker)
    {
      if ok {
        broker := None;
      }
    }
  }

  class PaperBotRuntime {
    var status: Status
    var task: Option<nat>
    var runner: Option<Broker>
    var lastProcessed: map<string, int>
    const storage: StorageRepository
    const streams: SM.Manager

    // The event loop: every task ever created, and the `stop` call that awaits one.
    var tasks: seq<Task>
    var stopping: Option<StopFrame>

    // What the current session met and handed on.
    ghost var offered: seq<Candle>
    ghost var cycled: seq<Candle>

    ghost function Abs(): Sys
      reads this, storage, streams
    {
      Sys(status, task, tasks, runner, lastProcessed, streams.snapshots, stopping,
        storage.session, storage.broker, offered, cycled)
    }

    ghost predicate Valid()
      reads streams
    {
      streams.Valid()
    }

    /** A new process over existing storage. */
    constructor (storage: StorageRepository, streams: SM.Manager, w: Writes)
      requires streams.Valid() && streams.snapshots == map[]
      modifies storage
      ensures this.storage == storage && this.streams == streams && Valid()
      ensures Abs() == DoRestart(FRESH.(session := old(storage.session), broker := old(storage.broker)), w)
    {
      this.storage := storage;
      this.streams := streams;
      status, task, tasks, stopping := DEFAULT_STATUS, None, [], None;
      runner, lastProcessed, offered, cycled := None, map[], [], [];
      new;
      if storage.broker.Some? {
        runner := Some(BuildBroker(storage.broker.value));
      }
      if storage.session.Some? {
        var r := storage.session.value;
        var restoredState, restoredMode, notice := r.state, r.mode, false;
        if restoredState == Running || restoredState == Paused {
          restoredState, restoredMode, notice := Paused, PausedMode, true;
        }
        status := Status(restoredState, restoredMode, r.symbol, r.sessionId, r.startedAt, r.lastEventTime,
          r.lastError, true, storage.broker.Some?, notice, r.profile);
        PersistRuntimeState(w.session);
      }
    }

    method PersistRuntimeState(ok: bool)
      modifies storage`session
      ensures Abs() == SaveSession(old(Abs()), ok)
    {
      storage.UpsertSession(Record(status), ok);
    }

    method PersistBrokerState(ok: bool)
      modifies storage`broker
      ensures Abs() == SaveBroker(old(Abs()), ok)
    {
      if runner.None? {
        return;
      }
      storage.UpsertBroker(runner.value, ok);
    }

    method Start(symbol: string, profile: Profile, sessionId: nat, now: int, w: Writes) returns (accepted: bool)
      requires stopping.None?
      modifies this, storage
      ensures accepted == old(StartAccepted(Abs(), Upper(symbol)))
      ensures Abs() == DoStart(old(Abs()), Event.Start(symbol, profile, sessionId, now, w))
    {
      var normalized := Upper(symbol);
      if normalized == "" {
        return false;
      }
      if task.Some? && task.value < |tasks| && !tasks[task.value].phase.Finished? {
        return false;
      }
      accepted := true;
      OpenSession(normalized, profile, sessionId, now);
      Launch(normalized, w);
    }

    method Launch(symbol: string, w: Writes)
      modifies this`task, this`tasks, storage
      ensures Abs() == Launched(old(Abs()), symbol, w)
    {
      PersistRuntimeState(w.session);
      PersistBrokerState(w.broker);
      if !w.runLog {
        return;
      }
      task := Some(|tasks|);
      tasks := tasks + [Task(symbol, Created)];
    }

    method OpenSession(symbol: string, profile: Profile, sessionId: nat, now: int)
      modifies this`status, this`runner, this`lastProcessed, this`offered, this`cycled
      ensures Abs() == Opened(old(Abs()), symbol, profile, sessionId, now)
    {
      var restored := runner.Some? && runner.value.positions != map[];
      status := Status(Running, AutoPaper, Some(symbol), Some(sessionId), Some(now), None, None,
        false, restored, false, profile);
      if runner.None? {
        runner := Some(INITIAL_BROKER);
      }
      lastProcessed := map[];
      offered, cycled := [], [];
    }

    /** `stop` up to the point where it awaits the cancelled task, or to its end when there is none. */
    method Stop(thenReset: bool, w: Writes)
      requires stopping.None?
      modifies this, storage
      ensures Abs() == DoStop(old(Abs()), Event.Stop(thenReset, w))
    {
      var current := task;
      task := None;
      if current.Some? && current.value < |tasks| && !tasks[current.value].phase.Finished? {
        var t := tasks[current.value];
        tasks := tasks[current.value := t.(phase := CancelRequested(t.phase != Created))];
        stopping := Some(StopFrame(current.value, thenReset));
        return;
      }
      Stopped(thenReset, w);
    }

    method StopContinues(w: Writes)
      requires stopping.Some? && stopping.value.task < |tasks| && tasks[stopping.value.task].phase.Finished?
      modifies this, storage
      ensures Abs() == DoStopContinues(old(Abs()), Event.StopContinues(w))
    {
      if tasks[stopping.value.task].phase.raised {
        stopping := None;
      } else {
        Stopped(stopping.value.thenReset, w);
      }
    }

    method Stopped(thenReset: bool, w: Writes)
      modifies this, storage
      ensures Abs() == FinishStop(old(Abs()), thenReset, w)
    {
      stopping := None;
      status := status.(state := RunState.Stopped, mode := StoppedMode);
      PersistRuntimeState(w.session);
      PersistBrokerState(w.broker);
      if status.sessionId.Some? && !w.runLog {
        return;
      }
      if thenReset {
        ResetSession(w);
      }
    }

    /** `reset_session` behind its `stop`: each delete may raise out of it. */
    method ResetSession(w: Writes)
      modifies this`status, this`runner, this`lastProcessed, storage
      ensures Abs() == ResetAll(old(Abs()), w)
    {
      runner := None;
      lastProcessed := map[];
      storage.ClearSession(w.clearSession);
      if !w.clearSession {
        return;
      }
      storage.ClearBroker(w.clearBroker);
      if !w.clearBroker {
        return;
      }
      status := DEFAULT_STATUS;
      PersistRuntimeState(w.finalSession);
    }

    method Pause(w: Writes) returns (accepted: bool)
      requires stopping.None?
      modifies this`status, storage`session
      ensures accepted == TaskRunning(old(Abs()))
      ensures Abs() == DoPause(old(Abs()), Event.Pause(w))
    {
      if task.None? || task.value >= |tasks| || tasks[task.value].phase.Finished? {
        return false;
      }
      status := status.(state := Paused, mode := PausedMode);
      PersistRuntimeState(w.session);
      return true;
    }

    method Resume(w: Writes) returns (accepted: bool)
      requires stopping.None?
      modifies this`status, storage`session
      ensures accepted == TaskRunning(old(Abs()))
      ensures Abs() == DoResume(old(Abs()), Event.Resume(w))
    {
      if task.None? || task.value >= |tasks| || tasks[task.value].phase.Finished? {
        return false;
      }
      status := status.(state := Running, mode := AutoPaper);
      PersistRuntimeState(w.session);
      return true;
    }

    method ExecuteManualTrade(symbol: string, trade: ManualOutcome, w: Writes) returns (accepted: bool)
      requires stopping.None?
      modifies this`runner, storage`broker
      ensures accepted == ManualAccepted(old(Abs()), Upper(symbol))
      ensures Abs() == DoManual(old(Abs()), Event.Manual(symbol, trade, w))
    {
      var normalized := Upper(symbol);
      if normalized == "" {
        return false;
      }
      if runner.None? || status.symbol != Some(normalized) || status.state == RunState.Stopped {
        return false;
      }
      accepted := true;
      runner := Some(trade.after);
      if trade.TradeReturns? {
        PersistBrokerState(w.broker);
      }
    }

    method RunBegins(t: nat)
      requires t < |tasks| && tasks[t].phase == Created
      modifies this`tasks
      ensures Abs() == DoTaskBegins(old(Abs()), t)
    {
      tasks := tasks[t := tasks[t].(phase := if runner.None? then Finished(true) else Streaming)];
    }

    /** One pass of the run loop, from one payload to the next await. */
    method RunPayload(t: nat, payload: Payload, receivedAt: int, cycle: Cycle, error: string, w: Writes)
      requires Valid() && t < |tasks| && tasks[t].phase == Streaming
      modifies this, storage, streams
      ensures Valid()
      ensures Abs() == DoDeliver(old(Abs()), Event.Deliver(t, payload, receivedAt, cycle, error, w))
    {
      var normalized := streams.NormalizePayload(payload, receivedAt);
      match normalized
      case Raised => RunFails(t, error, w);
      case Skipped =>
      case Merged(snapshot) =>
        status := status.(lastEventTime := snapshot.eventTime);
        PersistRuntimeState(w.session);
        if cycle.IngestRaises? {
          RunFails(t, error, w);
          return;
        }
        Considers(t, snapshot, cycle, error, w);
    }

    /** The loop's tests on one snapshot it has taken in. */
    method Considers(t: nat, snapshot: Snapshot, cycle: Cycle, error: string, w: Writes)
      requires t < |tasks| && !cycle.IngestRaises?
      modifies this, storage
      ensures old(Considered(snapshot, tasks[t].symbol, status.state)).None? ==> Abs() == old(Abs())
      ensures old(Considered(snapshot, tasks[t].symbol, status.state)).Some? ==> forall p, at ::
        Abs() == DoCycle(old(Abs()), Event.Deliver(t, p, at, cycle, error, w), snapshot.candle.value)
    {
      var symbol := tasks[t].symbol;
      if status.state == Paused || Upper(snapshot.symbol) != symbol
         || snapshot.candle.None? || !snapshot.candle.value.isClosed {
        return;
      }
      Cycled(t, snapshot.candle.value, cycle, error, w);
    }

    /** The gate and the strategy cycle for one closed candle. */
    method Cycled(t: nat, candle: Candle, cycle: Cycle, error: string, w: Writes)
      requires t < |tasks| && !cycle.IngestRaises?
      modifies this, storage
      ensures forall p, at :: Abs() == DoCycle(old(Abs()), Event.Deliver(t, p, at, cycle, error, w), candle)
    {
      var symbol := tasks[t].symbol;
      offered := offered + [candle];
      if symbol in lastProcessed && candle.openTime <= lastProcessed[symbol] {
        return;
      }
      cycled := cycled + [candle];
      match cycle {
        case ProcessRaises(b) =>
          runner := Some(b);
          RunFails(t, error, w);
          return;
        case SignalRaises(b) =>
          runner := Some(b);
          RunFails(t, error, w);
          return;
        case NoCycle =>
        case Completed(b) =>
          runner := Some(b);
          PersistBrokerState(w.broker);
      }
      lastProcessed := lastProcessed[symbol := candle.openTime];
    }

    method RunFails(t: nat, error: string, w: Writes)
      requires t < |tasks|
      modifies this`status, this`task, this`tasks, storage`session
      ensures Abs() == FailTask(old(Abs()), t, error, w)
    {
      status := status.(state := Failed, mode := ErrorMode, lastError := Some(error));
      RunEnds(t, w);
    }

    /** The `finally` block. */
    method RunEnds(t: nat, w: Writes)
      requires t < |tasks|
      modifies this`status, this`task, this`tasks, storage`session
      ensures Abs() == EndTask(old(Abs()), t, w)
    {
      task := None;
      if status.state != Failed {
        status := status.(state := RunState.Stopped, mode := StoppedMode);
      }
      if status.sessionId.Some? && !w.runLog {
        tasks := tasks[t := tasks[t].(phase := Finished(true))];
        return;
      }
      PersistRuntimeState(w.finalSession);
      tasks := tasks[t := tasks[t].(phase := Finished(false))];
    }

    method RunCancelled(t: nat, w: Writes)
      requires t < |tasks| && tasks[t].phase.CancelRequested?
      modifies this, storage
      ensures Abs() == DoCancelArrives(old(Abs()), t, w)
    {
      if tasks[t].phase.started {
        RunEnds(t, w);
      } else {
        tasks := tasks[t := tasks[t].(phase := Finished(false))];
      }
    }
  }
}
