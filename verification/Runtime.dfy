/** The paper-bot runtime of app/bot/runtime.py as a machine whose steps run between await points.
    The event loop runs one step at a time; `stop` is the only operation that awaits while it holds
    the lock, so it is two steps. Every storage write of a step may succeed or fail. */
module RuntimeModel {
  import opened Prelude
  import opened MarketData
  import SM = StreamManager

  datatype RunState = Stopped | Running | Paused | Failed
  datatype RunMode = StoppedMode | AutoPaper | PausedMode | ErrorMode
  datatype Profile = Conservative | Balanced | Aggressive

  predicate Matching(state: RunState, mode: RunMode) {
    match state
    case Stopped => mode == StoppedMode
    case Running => mode == AutoPaper
    case Paused => mode == PausedMode
    case Failed => mode == ErrorMode
  }

  datatype Status = Status(
    state: RunState,
    mode: RunMode,
    symbol: Option<string>,
    sessionId: Option<nat>,
    startedAt: Option<int>,
    lastEventTime: Option<int>,
    lastError: Option<string>,
    recovered: bool,
    brokerRestored: bool,
    resumeNotice: bool,
    profile: Profile)

  const DEFAULT_STATUS :=
    Status(Stopped, StoppedMode, None, None, None, None, None, false, false, false, Balanced)

  datatype SessionRecord = SessionRecord(
    state: RunState,
    mode: RunMode,
    symbol: Option<string>,
    sessionId: Option<nat>,
    startedAt: Option<int>,
    lastEventTime: Option<int>,
    lastError: Option<string>,
    profile: Profile)

  function Record(st: Status): SessionRecord {
    SessionRecord(st.state, st.mode, st.symbol, st.sessionId, st.startedAt, st.lastEventTime, st.lastError, st.profile)
  }

  datatype Position = Position(quantity: real, avgEntryPrice: real, quoteAsset: string, realizedPnl: real)

  datatype BrokerState = BrokerState(balances: map<string, real>, positions: map<string, Position>, realizedPnl: real)

  const INITIAL_BROKER := BrokerState(map["USDT" := 10000.0], map[], 0.0)

  /** A live broker never loses a balance row, so its balances are never empty. */
  type Broker = b: BrokerState | |b.balances| != 0 witness INITIAL_BROKER

  /** The broker constructor replaces an empty balance table by the initial one. */
  function BuildBroker(record: BrokerState): Broker {
    BrokerState(if |record.balances| == 0 then map["USDT" := 10000.0] else record.balances,
      record.positions, record.realizedPnl)
  }

  datatype Phase = Created | Streaming | CancelRequested(started: bool) | Finished(raised: bool)
  datatype Task = Task(symbol: string, phase: Phase)

  /** A `stop` call awaiting the task it cancelled; `thenReset` when `reset_session` made the call. */
  datatype StopFrame = StopFrame(task: nat, thenReset: bool)

  /** Fields of the runtime, the tasks of the event loop, the durable records, and two observations of
      the current session: the closed own-symbol candles met while not paused, and those handed on to
      `process_snapshot`. */
  datatype Sys = Sys(
    status: Status,
    task: Option<nat>,
    tasks: seq<Task>,
    runner: Option<Broker>,
    gate: map<string, int>,
    feed: SM.Cache,
    stopping: Option<StopFrame>,
    session: Option<SessionRecord>,
    broker: Option<BrokerState>,
    offered: seq<Candle>,
    cycled: seq<Candle>)

  const FRESH := Sys(DEFAULT_STATUS, None, [], None, map[], map[], None, None, None, [], [])

  /** Which storage writes of one step succeed. `session`, `finalSession` and `broker` are caught by the
      runtime when they fail; a failing `runLog` write, or one of the two deletes of a reset, raises out of
      the step. */
  datatype Writes = Writes(
    session: bool,
    finalSession: bool,
    broker: bool,
    runLog: bool,
    clearSession: bool,
    clearBroker: bool)

  const NO_WRITES := Writes(false, false, false, false, false, false)

  /** What the runner does with one candle that passed the gate (or with the snapshot before it). */
  datatype Cycle =
    | IngestRaises
    | ProcessRaises(after: Broker)
    | SignalRaises(after: Broker)
    | NoCycle
    | Completed(after: Broker)

  datatype ManualOutcome = TradeRaises(after: Broker) | TradeReturns(after: Broker)

  datatype Event =
    | Start(symbol: string, profile: Profile, sessionId: nat, now: int, w: Writes)
    | Stop(thenReset: bool, w: Writes)
    | StopContinues(w: Writes)
    | Pause(w: Writes)
    | Resume(w: Writes)
    | Manual(symbol: string, trade: ManualOutcome, w: Writes)
    | TaskBegins(t: nat)
    | Deliver(t: nat, payload: Payload, receivedAt: int, cycle: Cycle, error: string, w: Writes)
    | StreamEnds(t: nat, w: Writes)
    | StreamRaises(t: nat, error: string, w: Writes)
    | CancelArrives(t: nat, w: Writes)
    | CrashAndRestart(w: Writes)

  predicate Live(task: Task) {
    !task.phase.Finished?
  }

  predicate Active(state: RunState) {
    state == Running || state == Paused
  }

  // ----- the pieces the operations share -----

  function SaveSession(s: Sys, ok: bool): Sys {
    s.(session := if ok then Some(Record(s.status)) else s.session)
  }

  function SaveBroker(s: Sys, ok: bool): Sys {
    s.(broker := if s.runner.Some? && ok then Some(s.runner.value) else s.broker)
  }

  function SetPhase(s: Sys, t: nat, phase: Phase): Sys
    requires t < |s.tasks|
  {
    s.(tasks := s.tasks[t := s.tasks[t].(phase := phase)])
  }

  /** The `finally` block of the run loop. */
  function EndTask(s: Sys, t: nat, w: Writes): Sys
    requires t < |s.tasks|
  {
    var ended := s.(
      task := None,
      status := if s.status.state == Failed then s.status
                else s.status.(state := Stopped, mode := StoppedMode));
    var raised := s.status.sessionId.Some? && !w.runLog;
    SetPhase(SaveSession(ended, w.finalSession && !raised), t, Finished(raised))
  }

  function FailTask(s: Sys, t: nat, error: string, w: Writes): Sys
    requires t < |s.tasks|
  {
    EndTask(s.(status := s.status.(state := Failed, mode := ErrorMode, lastError := Some(error))), t, w)
  }

  /** Memory is forgotten first; then each delete may raise and leave the rest undone. */
  function ResetAll(s: Sys, w: Writes): Sys {
    var forgotten := s.(runner := None, gate := map[]);
    if !w.clearSession then forgotten
    else if !w.clearBroker then forgotten.(session := None)
    else SaveSession(forgotten.(session := None, broker := None, status := DEFAULT_STATUS), w.finalSession)
  }

  /** A stop that runs to the end of its own writes goes on to reset. */
  predicate GoesOnToReset(s: Sys, thenReset: bool, w: Writes) {
    thenReset && (s.status.sessionId.Some? ==> w.runLog)
  }

  predicate BothClear(w: Writes) {
    w.clearSession && w.clearBroker
  }

  /** `stop` from the point where the task is gone, and the rest of `reset_session` behind it. */
  function FinishStop(s: Sys, thenReset: bool, w: Writes): Sys {
    var stopped := s.(stopping := None, status := s.status.(state := Stopped, mode := StoppedMode));
    var saved := SaveBroker(SaveSession(stopped, w.session), w.broker);
    if saved.status.sessionId.Some? && !w.runLog then saved
    else if thenReset then ResetAll(saved, w)
    else saved
  }

  predicate TaskRunning(s: Sys) {
    s.task.Some? && s.task.value < |s.tasks| && Live(s.tasks[s.task.value])
  }

  // ----- the operations -----

  predicate StartAccepted(s: Sys, symbol: string) {
    symbol != "" && !TaskRunning(s)
  }

  /** A fresh session: the broker is kept if there is one, the gate is not. */
  function Opened(s: Sys, symbol: string, profile: Profile, sessionId: nat, now: int): Sys {
    s.(status := Status(Running, AutoPaper, Some(symbol), Some(sessionId), Some(now), None, None,
        false, s.runner.Some? && s.runner.value.positions != map[], false, profile),
      runner := Some(if s.runner.None? then INITIAL_BROKER else s.runner.value),
      gate := map[], offered := [], cycled := [])
  }

  /** Saves the opened session, logs the run and creates the background task. */
  function Launched(s: Sys, symbol: string, w: Writes): Sys {
    var saved := SaveBroker(SaveSession(s, w.session), w.broker);
    if !w.runLog then saved
    else saved.(tasks := saved.tasks + [Task(symbol, Created)], task := Some(|saved.tasks|))
  }

  function DoStart(s: Sys, e: Event): Sys
    requires e.Start?
  {
    var symbol := Upper(e.symbol);
    if !StartAccepted(s, symbol) then s
    else Launched(Opened(s, symbol, e.profile, e.sessionId, e.now), symbol, e.w)
  }

  function DoStop(s: Sys, e: Event): Sys
    requires e.Stop?
  {
    if TaskRunning(s) then
      SetPhase(s, s.task.value, CancelRequested(s.tasks[s.task.value].phase != Created))
        .(task := None, stopping := Some(StopFrame(s.task.value, e.thenReset)))
    else FinishStop(s.(task := None), e.thenReset, e.w)
  }

  function DoStopContinues(s: Sys, e: Event): Sys
    requires e.StopContinues?
    requires s.stopping.Some? && s.stopping.value.task < |s.tasks|
    requires s.tasks[s.stopping.value.task].phase.Finished?
  {
    if s.tasks[s.stopping.value.task].phase.raised then s.(stopping := None)
    else FinishStop(s, s.stopping.value.thenReset, e.w)
  }

  function DoPause(s: Sys, e: Event): Sys
    requires e.Pause?
  {
    if !TaskRunning(s) then s
    else SaveSession(s.(status := s.status.(state := Paused, mode := PausedMode)), e.w.session)
  }

  function DoResume(s: Sys, e: Event): Sys
    requires e.Resume?
  {
    if !TaskRunning(s) then s
    else SaveSession(s.(status := s.status.(state := Running, mode := AutoPaper)), e.w.session)
  }

  predicate ManualAccepted(s: Sys, symbol: string) {
    symbol != "" && s.runner.Some? && s.status.symbol == Some(symbol) && s.status.state != Stopped
  }

  function DoManual(s: Sys, e: Event): Sys
    requires e.Manual?
  {
    if !ManualAccepted(s, Upper(e.symbol)) then s
    else
      match e.trade
      case TradeRaises(b) => s.(runner := Some(b))
      case TradeReturns(b) => SaveBroker(s.(runner := Some(b)), e.w.broker)
  }

  /** The task's first step; its assertion demands a runner. */
  function DoTaskBegins(s: Sys, t: nat): Sys
    requires t < |s.tasks|
  {
    SetPhase(s, t, if s.runner.None? then Finished(true) else Streaming)
  }

  /** The candle of a snapshot that the loop would consider for a cycle. */
  function Considered(snapshot: Snapshot, symbol: string, state: RunState): Option<Candle> {
    if state != Paused && Upper(snapshot.symbol) == symbol && snapshot.candle.Some? && snapshot.candle.value.isClosed
    then snapshot.candle else None
  }

  predicate PassesGate(gate: map<string, int>, symbol: string, c: Candle) {
    symbol in gate ==> c.openTime > gate[symbol]
  }

  function DoCycle(s: Sys, e: Event, c: Candle): Sys
    requires e.Deliver? && e.t < |s.tasks| && !e.cycle.IngestRaises?
  {
    var symbol := s.tasks[e.t].symbol;
    var offered := s.(offered := s.offered + [c]);
    if !PassesGate(s.gate, symbol, c) then offered
    else
      var handed := offered.(cycled := s.cycled + [c]);
      match e.cycle
      case ProcessRaises(b) => FailTask(handed.(runner := Some(b)), e.t, e.error, e.w)
      case SignalRaises(b) => FailTask(handed.(runner := Some(b)), e.t, e.error, e.w)
      case NoCycle => handed.(gate := s.gate[symbol := c.openTime])
      case Completed(b) => SaveBroker(handed.(runner := Some(b)), e.w.broker).(gate := s.gate[symbol := c.openTime])
  }

  /** The state after the loop stored the snapshot and its time, before it looks at the candle. */
  function Noted(s: Sys, e: Event): Sys
    requires e.Deliver? && e.payload.Carries()
  {
    var feed := SM.Ingest(s.feed, e.payload, e.receivedAt);
    SaveSession(
      s.(feed := feed, status := s.status.(lastEventTime := feed[e.payload.Symbol()].eventTime)), e.w.session)
  }

  function DoDeliver(s: Sys, e: Event): Sys
    requires e.Deliver? && e.t < |s.tasks|
  {
    if e.payload.Malformed? then FailTask(s, e.t, e.error, e.w)
    else if e.payload.Unsupported? then s
    else
      var noted := Noted(s, e);
      if e.cycle.IngestRaises? then FailTask(noted, e.t, e.error, e.w)
      else
        match Considered(noted.feed[e.payload.Symbol()], s.tasks[e.t].symbol, s.status.state)
        case None => noted
        case Some(c) => DoCycle(noted, e, c)
  }

  function DoCancelArrives(s: Sys, t: nat, w: Writes): Sys
    requires t < |s.tasks| && s.tasks[t].phase.CancelRequested?
  {
    if s.tasks[t].phase.started then EndTask(s, t, w) else SetPhase(s, t, Finished(false))
  }

  /** A new process over the same durable records. */
  function DoRestart(s: Sys, w: Writes): Sys {
    var runner := if s.broker.None? then None else Some(BuildBroker(s.broker.value));
    var booted := FRESH.(runner := runner, session := s.session, broker := s.broker);
    if s.session.None? then booted
    else
      var r := s.session.value;
      var interrupted := Active(r.state);
      SaveSession(
        booted.(status := Status(
          if interrupted then Paused else r.state,
          if interrupted then PausedMode else r.mode,
          r.symbol, r.sessionId, r.startedAt, r.lastEventTime, r.lastError,
          true, s.broker.Some?, interrupted, r.profile)),
        w.session)
  }

  // ----- the machine -----

  predicate Enabled(s: Sys, e: Event) {
    match e
    case Start(_, _, _, _, _) => s.stopping.None?
    case Stop(_, _) => s.stopping.None?
    case Pause(_) => s.stopping.None?
    case Resume(_) => s.stopping.None?
    case Manual(_, _, _) => s.stopping.None?
    case StopContinues(_) =>
      s.stopping.Some? && s.stopping.value.task < |s.tasks| && s.tasks[s.stopping.value.task].phase.Finished?
    case TaskBegins(t) => t < |s.tasks| && s.tasks[t].phase.Created?
    case Deliver(t, _, _, _, _, _) => t < |s.tasks| && s.tasks[t].phase.Streaming?
    case StreamEnds(t, _) => t < |s.tasks| && s.tasks[t].phase.Streaming?
    case StreamRaises(t, _, _) => t < |s.tasks| && s.tasks[t].phase.Streaming?
    case CancelArrives(t, _) => t < |s.tasks| && s.tasks[t].phase.CancelRequested?
    case CrashAndRestart(_) => true
  }

  function Step(s: Sys, e: Event): Sys
    requires Enabled(s, e)
  {
    match e
    case Start(_, _, _, _, _) => DoStart(s, e)
    case Stop(_, _) => DoStop(s, e)
    case StopContinues(_) => DoStopContinues(s, e)
    case Pause(_) => DoPause(s, e)
    case Resume(_) => DoResume(s, e)
    case Manual(_, _, _) => DoManual(s, e)
    case TaskBegins(t) => DoTaskBegins(s, t)
    case Deliver(_, _, _, _, _, _) => DoDeliver(s, e)
    case StreamEnds(t, w) => EndTask(s, t, w)
    case StreamRaises(t, error, w) => FailTask(s, t, error, w)
    case CancelArrives(t, w) => DoCancelArrives(s, t, w)
    case CrashAndRestart(w) => DoRestart(s, w)
  }

  /** Every event of the run is enabled when its turn comes. */
  predicate Possible(s: Sys, events: seq<Event>)
    decreases events
  {
    events == [] || (Enabled(s, events[0]) && Possible(Step(s, events[0]), events[1..]))
  }

  function After(s: Sys, events: seq<Event>): Sys
    requires Possible(s, events)
    decreases events
  {
    if events == [] then s else After(Step(s, events[0]), events[1..])
  }

  lemma ConsRun(s: Sys, e: Event, events: seq<Event>)
    requires Enabled(s, e) && Possible(Step(s, e), events)
    ensures Possible(s, [e] + events) && After(s, [e] + events) == After(Step(s, e), events)
  {
    assert ([e] + events)[1..] == events;
  }

  lemma RunOfThree(s: Sys, a: Event, b: Event, c: Event)
    requires Enabled(s, a) && Enabled(Step(s, a), b) && Enabled(Step(Step(s, a), b), c)
    ensures Possible(s, [a, b, c]) && After(s, [a, b, c]) == Step(Step(Step(s, a), b), c)
  {
    var s2 := Step(Step(s, a), b);
    ConsRun(s2, c, []);
    assert [c] + [] == [c];
    ConsRun(Step(s, a), b, [c]);
    assert [b] + [c] == [b, c];
    ConsRun(s, a, [b, c]);
    assert [a] + [b, c] == [a, b, c];
  }
}
