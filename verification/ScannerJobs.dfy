/** The scanner job registry of app/api/bot_api.py: guarded updates by the worker thread against
    cancellation by any other thread. The spot and the futures registry have the same rules; the
    candidate lists are used by the futures one only. */
module ScannerJobs {
  import opened Prelude

  datatype JobStatus = Queued | Running | Partial | Completed | Failed | Cancelled

  /** A scan response, of which only what the registry copies out is kept apart. */
  datatype Response = Response(content: string, scannedCount: int, failedSymbols: seq<string>, latestError: Option<string>)

  datatype Candidates = Candidates(longs: seq<string>, shorts: seq<string>, neutrals: seq<string>)

  datatype Job = Job(
    status: JobStatus,
    total: int,
    scanned: int,
    currentSymbol: Option<string>,
    phase: string,
    updatedAt: int,
    completedAt: Option<int>,
    response: Option<Response>,
    candidates: Candidates,
    warnings: seq<string>,
    failed: seq<string>,
    latestError: Option<string>,
    cancelRequested: bool)

  function NewJob(now: int): Job {
    Job(Queued, 0, 0, None, "queued", now, None, None, Candidates([], [], []), [], [], None, false)
  }

  /** The keyword arguments of one `update` call; absent ones stay as they are. */
  datatype Patch = Patch(
    status: Option<JobStatus> := None,
    total: Option<int> := None,
    scanned: Option<int> := None,
    currentSymbol: Option<Option<string>> := None,
    phase: Option<string> := None,
    completedAt: Option<Option<int>> := None,
    response: Option<Option<Response>> := None,
    candidates: Option<Candidates> := None,
    warnings: Option<seq<string>> := None,
    failed: Option<seq<string>> := None,
    latestError: Option<Option<string>> := None)

  function Or<T>(patch: Option<T>, current: T): T {
    if patch.Some? then patch.value else current
  }

  function Patched(job: Job, p: Patch, now: int): Job {
    Job(Or(p.status, job.status), Or(p.total, job.total), Or(p.scanned, job.scanned),
      Or(p.currentSymbol, job.currentSymbol), Or(p.phase, job.phase), now,
      Or(p.completedAt, job.completedAt),
      Or(p.response, job.response), Or(p.candidates, job.candidates), Or(p.warnings, job.warnings),
      Or(p.failed, job.failed), Or(p.latestError, job.latestError), job.cancelRequested)
  }

  /** A cancelled job takes only updates that keep it cancelled. */
  function Updated(job: Job, p: Patch, now: int): Job {
    if job.status == Cancelled && p.status != Some(Cancelled) then job else Patched(job, p, now)
  }

  function CancelledJob(job: Job, now: int): Job {
    job.(cancelRequested := true, status := Cancelled, phase := "cancel_requested", completedAt := Some(now),
      latestError := Some("Scan cancelled by user."),
      warnings := [if job.response.Some? then "Scan cancelled. Partial results remain advisory-only."
                   else "Scan cancelled."],
      updatedAt := now)
  }

  // ----- the worker against everybody else -----

  /** Where the one worker thread of a job stands. `CancelWriting` holds the response it read before it
      writes the cancelled status. */
  datatype Pc =
    | Entered
    | Loading
    | Sized
    | LoopHead(start: nat)
    | BatchStarting(start: nat)
    | Scanning(start: nat)
    | Checking(start: nat)
    | Publishing(start: nat)
    | Responding(start: nat)
    | LoopLeft
    | Finalizing
    | Completing
    | CancelReading
    | CancelWriting(read: Option<Response>)
    | Failing
    | Done

  /** `count` is the worker's own number of candidates. */
  datatype World = World(job: Job, pc: Pc, batchSize: nat, count: nat)

  /** One atomic step: a locked registry call, or the worker's read of the shared job. What the model
      does not compute (responses, lists, timings) comes as a parameter. */
  datatype Event =
    | RejectHorizon(now: int)
    | MarkRunning(now: int)
    | PublishTotal(total: nat, now: int)
    | NoUniverse(response: Response, now: int)
    | EnterLoop
    | CheckHead(expired: bool)
    | StartBatch(signalsSeen: bool, symbol: string, now: int)
    | StartSymbol(symbol: string, now: int)
    | FinishBatch
    | CheckBatch
    | PublishScanned(failed: seq<string>, now: int)
    | PublishResponse(response: Response, candidates: Candidates, pending: bool, now: int)
    | CheckEnd
    | MarkPersisting(now: int)
    | PublishCompleted(response: Response, candidates: Candidates, failed: seq<string>, now: int)
    | ReadForCancel
    | WriteCancelled(now: int)
    | Interrupted
    | Raised
    | PublishFailed(cached: Option<Response>, error: string, now: int)
    | UserCancels(now: int)
    | ThreadRecorded(now: int)

  predicate InTry(pc: Pc) {
    !pc.Entered? && !pc.CancelReading? && !pc.CancelWriting? && !pc.Failing? && !pc.Done?
  }

  predicate Enabled(w: World, e: Event) {
    match e
    case RejectHorizon(_) => w.pc.Entered?
    case MarkRunning(_) => w.pc.Entered?
    case PublishTotal(_, _) => w.pc.Loading?
    case NoUniverse(_, _) => w.pc.Sized?
    case EnterLoop => w.pc.Sized?
    case CheckHead(_) => w.pc.LoopHead?
    case StartBatch(_, _, _) => w.pc.BatchStarting?
    case StartSymbol(_, _) => w.pc.Scanning?
    case FinishBatch => w.pc.Scanning?
    case CheckBatch => w.pc.Checking?
    case PublishScanned(_, _) => w.pc.Publishing?
    case PublishResponse(_, _, _, _) => w.pc.Responding?
    case CheckEnd => w.pc.LoopLeft?
    case MarkPersisting(_) => w.pc.Finalizing?
    case PublishCompleted(_, _, _, _) => w.pc.Finalizing? || w.pc.Completing?
    case ReadForCancel => w.pc.CancelReading?
    case WriteCancelled(_) => w.pc.CancelWriting?
    case Interrupted => InTry(w.pc)
    case Raised => InTry(w.pc)
    case PublishFailed(_, _, _) => w.pc.Failing?
    case UserCancels(_) => true
    case ThreadRecorded(_) => true
  }

  function ReachedBy(w: World, start: nat): int {
    MinInt(start + w.batchSize, w.count)
  }

  function Write(w: World, p: Patch, now: int, next: Pc): World {
    w.(job := Updated(w.job, p, now), pc := next)
  }

  function Step(w: World, e: Event): World
    requires Enabled(w, e)
  {
    match e
    case RejectHorizon(now) =>
      Write(w, Patch(status := Some(Failed), phase := Some("failed"), completedAt := Some(Some(now))), now, Done)
    case MarkRunning(now) =>
      Write(w, Patch(status := Some(Running), phase := Some("loading_universe")), now, Loading)
    case PublishTotal(total, now) =>
      Write(w, Patch(total := Some(total), phase := Some("universe_ready")), now, Sized).(count := total)
    case NoUniverse(response, now) =>
      Write(w, Patch(status := Some(Failed), phase := Some("failed"), completedAt := Some(Some(now)),
          response := Some(Some(response))), now, Done)
    case EnterLoop => w.(pc := LoopHead(0))
    case CheckHead(expired) =>
      if w.pc.start >= w.count then w.(pc := LoopLeft)
      else if w.job.cancelRequested then w.(pc := CancelReading)
      else if expired then w.(pc := LoopLeft)
      else w.(pc := BatchStarting(w.pc.start))
    case StartBatch(signalsSeen, symbol, now) =>
      Write(w, Patch(status := Some(if signalsSeen then Partial else Running),
          currentSymbol := Some(Some(symbol)), phase := Some("scanning_batch")), now, Scanning(w.pc.start))
    case StartSymbol(symbol, now) =>
      if w.job.cancelRequested then w
      else Write(w, Patch(currentSymbol := Some(Some(symbol)), phase := Some("candle_fetch")), now, w.pc)
    case FinishBatch => w.(pc := Checking(w.pc.start))
    case CheckBatch =>
      if w.job.cancelRequested then w.(pc := CancelReading) else w.(pc := Publishing(w.pc.start))
    case PublishScanned(failed, now) =>
      Write(w, Patch(scanned := Some(ReachedBy(w, w.pc.start)), failed := Some(failed),
          phase := Some("ranking")), now, Responding(w.pc.start))
    case PublishResponse(response, candidates, pending, now) =>
      Write(w, Patch(status := Some(if ReachedBy(w, w.pc.start) < w.count then Partial else Running),
          response := Some(Some(response)), candidates := Some(candidates)), now,
        if pending then LoopLeft else LoopHead(w.pc.start + w.batchSize))
    case CheckEnd =>
      if w.job.cancelRequested then w.(pc := CancelReading) else w.(pc := Finalizing)
    case MarkPersisting(now) => Write(w, Patch(phase := Some("persisting_completed")), now, Completing)
    case PublishCompleted(response, candidates, failed, now) =>
      Write(w, Patch(status := Some(Completed), scanned := Some(response.scannedCount), currentSymbol := Some(None),
          phase := Some("completed"), completedAt := Some(Some(now)), response := Some(Some(response)),
          candidates := Some(candidates), failed := Some(failed), latestError := Some(response.latestError)), now, Done)
    case ReadForCancel => w.(pc := CancelWriting(w.job.response))
    case WriteCancelled(now) =>
      Write(w, Patch(status := Some(Cancelled), currentSymbol := Some(None), phase := Some("cancelled"),
          completedAt := Some(Some(now)), response := Some(w.pc.read),
          latestError := Some(Some("Scan cancelled by user."))), now, Done)
    case Interrupted => w.(pc := CancelReading)
    case Raised => w.(pc := Failing)
    case PublishFailed(cached, error, now) =>
      Write(w, Patch(status := Some(Failed), currentSymbol := Some(None), phase := Some("failed"),
          completedAt := Some(Some(now)), response := Some(cached), latestError := Some(Some(error))), now, Done)
    case UserCancels(now) => w.(job := CancelledJob(w.job, now))
    case ThreadRecorded(now) => w.(job := w.job.(updatedAt := now))
  }

  predicate Possible(w: World, events: seq<Event>)
    decreases events
  {
    events == [] || (Enabled(w, events[0]) && Possible(Step(w, events[0]), events[1..]))
  }

  function After(w: World, events: seq<Event>): World
    requires Possible(w, events)
    decreases events
  {
    if events == [] then w else After(Step(w, events[0]), events[1..])
  }

  function Begin(batchSize: nat, now: int): World {
    World(NewJob(now), Entered, batchSize, 0)
  }

  // ----- what cancellation freezes -----

  /** What a user sees of a job's outcome. */
  datatype Outcome = Outcome(status: JobStatus, response: Option<Response>, total: int, scanned: int, failed: seq<string>,
                             candidates: Candidates)

  function Shown(job: Job): Outcome {
    Outcome(job.status, job.response, job.total, job.scanned, job.failed, job.candidates)
  }

  predicate Terminal(status: JobStatus) {
    status == Completed || status == Failed
  }

  predicate Looping(pc: Pc) {
    pc.LoopHead? || pc.BatchStarting? || pc.Scanning? || pc.Checking? || pc.Publishing? || pc.Responding?
  }

  /** A response read for the cancelled write is still current, a terminal job has no worker left, a user's
      request is never forgotten, and progress stays within the total. */
  predicate Inv(w: World) {
    && (w.pc.CancelWriting? ==> w.pc.read == w.job.response)
    && (Terminal(w.job.status) ==> w.pc.Done?)
    && (w.job.cancelRequested ==> w.job.status == Cancelled)
    && (w.job.status == Cancelled ==> w.job.cancelRequested || w.pc.Done?)
    && (w.pc.Entered? || w.pc.Loading? || w.pc.Sized? ==> w.job.scanned == 0)
    && (w.pc.Entered? || w.pc.Loading? ==> w.job.total == w.count == 0)
    && (w.job.status != Cancelled && !w.pc.Done? ==> w.job.total == w.count)
    && (!w.pc.Done? ==> 0 <= w.job.scanned <= w.job.total)
    && (Looping(w.pc) ==> w.job.scanned <= w.pc.start + if w.pc.Responding? then w.batchSize else 0)
  }

  lemma LoopKeepsInv(w: World, e: Event)
    requires Inv(w) && Enabled(w, e) && Looping(w.pc) && !e.UserCancels? && !e.ThreadRecorded?
    ensures Inv(Step(w, e))
  {
    if w.job.status == Cancelled {
      assert Shown(Step(w, e).job) == Shown(w.job);
    }
  }

  lemma EntryKeepsInv(w: World, e: Event)
    requires Inv(w) && Enabled(w, e) && (w.pc.Entered? || w.pc.Loading? || w.pc.Sized?)
    requires !e.UserCancels? && !e.ThreadRecorded?
    ensures Inv(Step(w, e))
  {
    if w.job.status == Cancelled {
      assert Shown(Step(w, e).job) == Shown(w.job);
    }
  }

  lemma ExitKeepsInv(w: World, e: Event)
    requires Inv(w) && Enabled(w, e) && !Looping(w.pc) && !w.pc.Entered? && !w.pc.Loading? && !w.pc.Sized?
    requires !e.UserCancels? && !e.ThreadRecorded?
    ensures Inv(Step(w, e))
  {
    if w.job.status == Cancelled {
      assert Shown(Step(w, e).job) == Shown(w.job);
    }
  }

  /** Every atomic step of the worker, of a cancelling user or of the starting thread keeps the invariant. */
  lemma StepKeepsInv(w: World, e: Event)
    requires Inv(w) && Enabled(w, e)
    ensures Inv(Step(w, e))
  {
    if !e.UserCancels? && !e.ThreadRecorded? {
      if Looping(w.pc) {
        LoopKeepsInv(w, e);
      } else if w.pc.Entered? || w.pc.Loading? || w.pc.Sized? {
        EntryKeepsInv(w, e);
      } else {
        ExitKeepsInv(w, e);
      }
    }
  }

  lemma {:induction false} RunKeepsInv(w: World, events: seq<Event>)
    requires Inv(w) && Possible(w, events)
    ensures Inv(After(w, events))
    decreases events
  {
    if events != [] {
      StepKeepsInv(w, events[0]);
      RunKeepsInv(Step(w, events[0]), events[1..]);
    }
  }

  /** No step of anybody changes what a cancelled job shows. */
  lemma CancelledIsFrozen(w: World, e: Event)
    requires Inv(w) && Enabled(w, e) && w.job.status == Cancelled
    ensures Shown(Step(w, e).job) == Shown(w.job)
  {
  }

  lemma {:induction false} CancelledStaysFrozen(w: World, events: seq<Event>)
    requires Inv(w) && Possible(w, events) && w.job.status == Cancelled
    ensures Shown(After(w, events).job) == Shown(w.job)
    decreases events
  {
    if events != [] {
      StepKeepsInv(w, events[0]);
      CancelledIsFrozen(w, events[0]);
      CancelledStaysFrozen(Step(w, events[0]), events[1..]);
    }
  }

  /** Cancellation is final under every interleaving: after any run, once `cancel` has returned the job is
      cancelled for good, and its response, counts, failures and candidates stay what they were before it. */
  lemma CancelIsFinal(batchSize: nat, born: int, before: seq<Event>, now: int, after: seq<Event>)
    requires Possible(Begin(batchSize, born), before)
    requires Possible(Step(After(Begin(batchSize, born), before), UserCancels(now)), after)
    ensures var w := After(Begin(batchSize, born), before);
      Shown(After(Step(w, UserCancels(now)), after).job) == Shown(w.job).(status := Cancelled)
  {
    var w := After(Begin(batchSize, born), before);
    RunKeepsInv(Begin(batchSize, born), before);
    StepKeepsInv(w, UserCancels(now));
    CancelledStaysFrozen(Step(w, UserCancels(now)), after);
  }

  /** A completed or failed job can only be cancelled. */
  lemma TerminalMovesOnlyToCancelled(w: World, e: Event)
    requires Inv(w) && Enabled(w, e) && Terminal(w.job.status)
    ensures Step(w, e).job.status == w.job.status || (e.UserCancels? && Step(w, e).job.status == Cancelled)
    ensures Shown(Step(w, e).job).(status := w.job.status) == Shown(w.job)
  {
  }

  /** Until the worker is done, published progress never goes back and never exceeds the total. */
  lemma ProgressIsMonotone(w: World, e: Event)
    requires Inv(w) && Enabled(w, e) && !Step(w, e).pc.Done?
    ensures w.job.scanned <= Step(w, e).job.scanned <= Step(w, e).job.total
  {
    StepKeepsInv(w, e);
  }

  /** A worker that looks after a user's request always ends in the cancelled state, from either check. */
  lemma RequestIsSeen(w: World, e: Event)
    requires Inv(w) && Enabled(w, e) && w.job.cancelRequested
    requires (e.CheckHead? && w.pc.start < w.count) || e.CheckBatch? || e.CheckEnd?
    ensures Step(w, e).pc == CancelReading
  {
  }

  /** After a user's request the worker starts at most the one batch it had already admitted, in any run. */
  lemma {:induction false} NoNewBatchAfterCancel(w: World, events: seq<Event>)
    requires Inv(w) && w.job.cancelRequested && Possible(w, events)
    ensures forall i :: 0 <= i < |events| && events[i].StartBatch? ==> w.pc.BatchStarting?
    ensures forall i, j :: 0 <= i < j < |events| && events[i].StartBatch? ==> !events[j].StartBatch?
    decreases events
  {
    if events != [] {
      var next, rest := Step(w, events[0]), events[1..];
      StepKeepsInv(w, events[0]);
      NoNewBatchAfterCancel(next, rest);
      assert next.pc.BatchStarting? ==> w.pc.BatchStarting? && !events[0].StartBatch?;
      forall j | 1 <= j < |events| && events[j].StartBatch?
        ensures next.pc.BatchStarting?
      {
        assert rest[j - 1].StartBatch?;
      }
      forall i, j | 0 <= i < j < |events| && events[i].StartBatch?
        ensures !events[j].StartBatch?
      {
        if i > 0 {
          assert rest[i - 1].StartBatch? && events[j] == rest[j - 1];
        }
      }
    }
  }

  /** Once a user has cancelled, the worker publishes nothing more: it can finish only as cancelled. */
  lemma NeverCompletesAfterCancel(w: World, events: seq<Event>)
    requires Inv(w) && w.job.cancelRequested && Possible(w, events)
    ensures After(w, events).job.status == Cancelled
  {
    CancelledStaysFrozen(w, events);
  }

  // ----- how a job ends -----

  predicate Unsuccessful(e: Event) {
    e.RejectHorizon? || e.NoUniverse? || e.PublishFailed?
  }

  /** The last step of the worker decides what an uncancelled job shows for good: completed with the final
      response, failed, or cancelled. */
  lemma LastStepDecides(w: World, e: Event)
    requires Inv(w) && Enabled(w, e) && w.job.status != Cancelled && !w.pc.Done? && Step(w, e).pc.Done?
    ensures var job := Step(w, e).job;
      && (job.status == Completed <==> e.PublishCompleted?)
      && (job.status == Failed <==> Unsuccessful(e))
      && (job.status == Cancelled <==> e.WriteCancelled?)
      && job.completedAt == Some(e.now) && job.updatedAt == e.now
      && job.phase == (if e.PublishCompleted? then "completed" else if e.WriteCancelled? then "cancelled" else "failed")
      && (e.PublishCompleted? || e.PublishFailed? || e.WriteCancelled? ==> job.currentSymbol == None)
      && (e.PublishCompleted? ==> job.response == Some(e.response) && job.candidates == e.candidates
                                  && job.failed == e.failed && job.scanned == e.response.scannedCount
                                  && job.latestError == e.response.latestError)
      && (e.NoUniverse? ==> job.response == Some(e.response))
      && (e.PublishFailed? ==> job.response == e.cached && job.latestError == Some(e.error))
      && (e.WriteCancelled? ==> job.response == w.job.response && job.scanned == w.job.scanned
                                && job.latestError == Some("Scan cancelled by user."))
  {
  }

  ghost predicate Cancels(events: seq<Event>) {
    exists i :: 0 <= i < |events| && events[i].UserCancels?
  }

  ghost predicate Completes(events: seq<Event>) {
    exists i :: 0 <= i < |events| && events[i].PublishCompleted?
  }

  ghost predicate Fails(events: seq<Event>) {
    exists i :: 0 <= i < |events| && Unsuccessful(events[i])
  }

  ghost predicate Withdraws(events: seq<Event>) {
    exists i :: 0 <= i < |events| && events[i].WriteCancelled?
  }

  /** What the run from a world makes of the status. */
  ghost predicate Outcomes(w: World, events: seq<Event>, status: JobStatus) {
    && (status == Completed <==> !Cancels(events) && (w.job.status == Completed || (w.job.status != Cancelled && Completes(events))))
    && (status == Failed <==> !Cancels(events) && (w.job.status == Failed || (w.job.status != Cancelled && Fails(events))))
    && (status == Cancelled <==> Cancels(events) || w.job.status == Cancelled || Withdraws(events))
  }

  lemma OneOutcome(w: World, e: Event)
    requires Inv(w) && Enabled(w, e)
    ensures var before, after := w.job.status, Step(w, e).job.status;
      && (after == Completed <==> !e.UserCancels? && (before == Completed || (before != Cancelled && e.PublishCompleted?)))
      && (after == Failed <==> !e.UserCancels? && (before == Failed || (before != Cancelled && Unsuccessful(e))))
      && (after == Cancelled <==> e.UserCancels? || before == Cancelled || e.WriteCancelled?)
  {
  }

  lemma {:induction false} DoneIsQuiet(w: World, events: seq<Event>)
    requires w.pc.Done? && Possible(w, events)
    ensures !Completes(events) && !Fails(events) && !Withdraws(events)
    decreases events
  {
    if events != [] {
      DoneIsQuiet(Step(w, events[0]), events[1..]);
      FirstOrRest(events);
    }
  }

  lemma {:induction false} RunDecides(w: World, events: seq<Event>)
    requires Inv(w) && Possible(w, events)
    ensures Outcomes(w, events, After(w, events).job.status)
    decreases events
  {
    if events != [] {
      var e, rest := events[0], events[1..];
      StepKeepsInv(w, e);
      OneOutcome(w, e);
      RunDecides(Step(w, e), rest);
      FirstOrRest(events);
      if Step(w, e).pc.Done? {
        DoneIsQuiet(Step(w, e), rest);
      }
    }
  }

  lemma FirstOrRest(events: seq<Event>)
    requires events != []
    ensures Cancels(events) <==> events[0].UserCancels? || Cancels(events[1..])
    ensures Completes(events) <==> events[0].PublishCompleted? || Completes(events[1..])
    ensures Fails(events) <==> Unsuccessful(events[0]) || Fails(events[1..])
    ensures Withdraws(events) <==> events[0].WriteCancelled? || Withdraws(events[1..])
  {
    var rest := events[1..];
    assert forall i :: 0 < i < |events| ==> events[i] == rest[i - 1];
    assert forall i :: 0 <= i < |rest| ==> rest[i] == events[i + 1];
  }

  /** The outcome law: over every interleaving a job is completed exactly if the worker published completion and
      no user ever cancelled, failed exactly if it published a failure and no user cancelled, and cancelled
      exactly if a user cancelled or the worker withdrew. */
  lemma OutcomeLaw(batchSize: nat, born: int, events: seq<Event>)
    requires Possible(Begin(batchSize, born), events)
    ensures var status := After(Begin(batchSize, born), events).job.status;
      && (status == Completed <==> Completes(events) && !Cancels(events))
      && (status == Failed <==> Fails(events) && !Cancels(events))
      && (status == Cancelled <==> Cancels(events) || Withdraws(events))
  {
    RunDecides(Begin(batchSize, born), events);
  }

  predicate OnlyRecords(events: seq<Event>) {
    forall i :: 0 <= i < |events| ==> events[i].ThreadRecorded?
  }

  lemma {:induction false} QueuedWhileUntouched(w: World, events: seq<Event>)
    requires Inv(w) && Possible(w, events) && (w.job.status == Queued ==> w.pc.Entered?)
    ensures After(w, events).job.status == Queued <==> w.job.status == Queued && OnlyRecords(events)
    decreases events
  {
    if events != [] {
      StepKeepsInv(w, events[0]);
      QueueLeft(w, events[0]);
      QueuedWhileUntouched(Step(w, events[0]), events[1..]);
      assert events == [events[0]] + events[1..];
    }
  }

  lemma QueueLeft(w: World, e: Event)
    requires Inv(w) && Enabled(w, e) && (w.job.status == Queued ==> w.pc.Entered?)
    ensures Step(w, e).job.status == Queued <==> w.job.status == Queued && e.ThreadRecorded?
    ensures Step(w, e).job.status == Queued ==> Step(w, e).pc.Entered?
  {
  }

  /** A job is queued exactly until something other than the recording of its thread happens to it. */
  lemma QueuedUntilTouched(batchSize: nat, born: int, events: seq<Event>)
    requires Possible(Begin(batchSize, born), events)
    ensures After(Begin(batchSize, born), events).job.status == Queued <==> OnlyRecords(events)
  {
    QueuedWhileUntouched(Begin(batchSize, born), events);
  }

  // ----- the loop over the batches -----

  /** What a run has done so far: batches started, scanned counts and responses published, and whether the
      deadline or a pending scan cut it short. */
  datatype Tally = Tally(starts: nat, scans: nat, responses: nat, cut: bool)

  function Counted(t: Tally, e: Event): Tally {
    match e
    case StartBatch(_, _, _) => t.(starts := t.starts + 1)
    case PublishScanned(_, _) => t.(scans := t.scans + 1)
    case PublishResponse(_, _, pending, _) => t.(responses := t.responses + 1, cut := t.cut || pending)
    case CheckHead(expired) => t.(cut := t.cut || expired)
    case _ => t
  }

  function TallyOf(events: seq<Event>, t: Tally): Tally
    decreases events
  {
    if events == [] then t else TallyOf(events[1..], Counted(t, events[0]))
  }

  /** Candidates in so many full batches. */
  function InBatches(n: nat, batchSize: nat): nat {
    if n == 0 then 0 else InBatches(n - 1, batchSize) + batchSize
  }

  predicate BeforeLoop(pc: Pc) {
    pc.Entered? || pc.Loading? || pc.Sized?
  }

  predicate BehindLoop(pc: Pc) {
    pc.LoopLeft? || pc.Finalizing? || pc.Completing?
  }

  /** Every batch but the last is started, scanned and answered in turn, each with candidates left, and the loop is
      left only when none are or when it was cut short. */
  predicate Turns(pc: Pc, count: nat, batchSize: nat, t: Tally) {
    && (BeforeLoop(pc) ==> t == Tally(0, 0, 0, false))
    && (Looping(pc) ==> pc.start == InBatches(t.responses, batchSize))
    && (pc.LoopHead? || pc.BatchStarting? ==> t.starts == t.scans == t.responses)
    && (pc.Scanning? || pc.Checking? || pc.Publishing? ==> t.starts == t.scans + 1 == t.responses + 1)
    && (pc.Responding? ==> t.starts == t.scans == t.responses + 1)
    && (Looping(pc) && !pc.LoopHead? ==> pc.start < count)
    && (t.starts > 0 && (pc.LoopHead? || BehindLoop(pc)) ==> InBatches(t.starts - 1, batchSize) < count)
    && (BehindLoop(pc) ==> t.starts == t.scans == t.responses && (t.cut || count <= InBatches(t.starts, batchSize)))
  }

  /** The published progress of a job nobody cancelled is what the batches scanned so far hold. */
  predicate ScannedIsCounted(w: World, t: Tally) {
    !w.pc.Done? && w.job.status != Cancelled ==> w.job.scanned == MinInt(InBatches(t.scans, w.batchSize), w.count)
  }

  predicate OnTrack(w: World, t: Tally) {
    Turns(w.pc, w.count, w.batchSize, t) && ScannedIsCounted(w, t)
  }

  lemma StepTurns(w: World, e: Event, t: Tally)
    requires Turns(w.pc, w.count, w.batchSize, t) && Enabled(w, e)
    ensures Turns(Step(w, e).pc, Step(w, e).count, w.batchSize, Counted(t, e)) && Step(w, e).batchSize == w.batchSize
  {
    if w.pc.LoopHead? || w.pc.BatchStarting? || w.pc.Scanning? {
      BatchTurns(w, e, t);
    } else if Looping(w.pc) {
      ReportTurns(w, e, t);
    }
  }

  lemma BatchTurns(w: World, e: Event, t: Tally)
    requires Turns(w.pc, w.count, w.batchSize, t) && Enabled(w, e)
    requires w.pc.LoopHead? || w.pc.BatchStarting? || w.pc.Scanning?
    ensures Turns(Step(w, e).pc, Step(w, e).count, w.batchSize, Counted(t, e)) && Step(w, e).batchSize == w.batchSize
  {
  }

  lemma ReportTurns(w: World, e: Event, t: Tally)
    requires Turns(w.pc, w.count, w.batchSize, t) && Enabled(w, e)
    requires w.pc.Checking? || w.pc.Publishing? || w.pc.Responding?
    ensures Turns(Step(w, e).pc, Step(w, e).count, w.batchSize, Counted(t, e)) && Step(w, e).batchSize == w.batchSize
  {
  }

  lemma StepCountsScanned(w: World, e: Event, t: Tally)
    requires Inv(w) && OnTrack(w, t) && Enabled(w, e)
    ensures ScannedIsCounted(Step(w, e), Counted(t, e))
  {
  }

  lemma {:induction false} RunStaysOnTrack(w: World, events: seq<Event>, t: Tally)
    requires Inv(w) && OnTrack(w, t) && Possible(w, events)
    ensures OnTrack(After(w, events), TallyOf(events, t))
    decreases events
  {
    if events != [] {
      var e := events[0];
      StepKeepsInv(w, e);
      StepTurns(w, e, t);
      StepCountsScanned(w, e, t);
      RunStaysOnTrack(Step(w, e), events[1..], Counted(t, e));
    }
  }

  /** The loop law: whenever the worker stands behind its loop, it has started, scanned and answered equally many
      batches, the last of them with candidates left, and all candidates unless the deadline or a pending scan
      cut it short; and until then the published progress of a job nobody cancelled is exactly the number of
      candidates in the batches scanned. */
  lemma LoopLaw(batchSize: nat, born: int, events: seq<Event>)
    requires Possible(Begin(batchSize, born), events)
    ensures var w, t := After(Begin(batchSize, born), events), TallyOf(events, Tally(0, 0, 0, false));
      && w.batchSize == batchSize
      && (BehindLoop(w.pc) ==>
            && t.starts == t.scans == t.responses
            && (t.starts > 0 ==> InBatches(t.starts - 1, batchSize) < w.count)
            && (t.cut || w.count <= InBatches(t.starts, batchSize)))
      && (!w.pc.Done? && w.job.status != Cancelled ==> w.job.scanned == MinInt(InBatches(t.scans, batchSize), w.count))
  {
    RunStaysOnTrack(Begin(batchSize, born), events, Tally(0, 0, 0, false));
    BatchSizeStays(Begin(batchSize, born), events);
  }

  lemma {:induction false} BatchSizeStays(w: World, events: seq<Event>)
    requires Possible(w, events)
    ensures After(w, events).batchSize == w.batchSize
    decreases events
  {
    if events != [] {
      BatchSizeStays(Step(w, events[0]), events[1..]);
    }
  }

  /** What an active job shows after a worker step: running once accepted, and partial exactly when signals are
      there as a batch starts, or candidates are left after its response. */
  lemma ActiveStatus(w: World, e: Event)
    requires Inv(w) && Enabled(w, e) && w.job.status != Cancelled
    ensures var status := Step(w, e).job.status;
      && (e.MarkRunning? ==> status == Running)
      && (e.StartBatch? ==> status == if e.signalsSeen then Partial else Running)
      && (e.PublishResponse? ==> status == if w.pc.start + w.batchSize < w.count then Partial else Running)
      && (status == Queued ==> w.job.status == Queued)
      && (e.StartBatch? ==> Step(w, e).job.currentSymbol == Some(e.symbol))
      && (e.StartSymbol? && !w.job.cancelRequested ==> Step(w, e).job.currentSymbol == Some(e.symbol))
      && (!e.MarkRunning? && !e.StartBatch? && !e.PublishResponse? && !Step(w, e).pc.Done? && !e.UserCancels? ==>
            status == w.job.status)
  {
  }

  /** The phase an active job shows after a worker step, where the step names one. */
  lemma ActivePhase(w: World, e: Event)
    requires Inv(w) && Enabled(w, e) && w.job.status != Cancelled
    ensures var phase := Step(w, e).job.phase;
      && (e.MarkRunning? ==> phase == "loading_universe") && (e.PublishTotal? ==> phase == "universe_ready")
      && (e.StartBatch? ==> phase == "scanning_batch") && (e.PublishScanned? ==> phase == "ranking")
      && (e.StartSymbol? && !w.job.cancelRequested ==> phase == "candle_fetch")
      && (e.MarkPersisting? ==> phase == "persisting_completed")
      && (e.PublishResponse? || e.ThreadRecorded? ==> phase == w.job.phase)
  {
  }

  /** What the worker last published of its partial results. */
  datatype News = News(response: Option<Response>, candidates: Candidates, failed: seq<string>)

  function Heard(n: News, e: Event): News {
    match e
    case PublishScanned(failed, _) => n.(failed := failed)
    case PublishResponse(response, candidates, _, _) => n.(response := Some(response), candidates := candidates)
    case _ => n
  }

  function NewsOf(events: seq<Event>, n: News): News
    decreases events
  {
    if events == [] then n else NewsOf(events[1..], Heard(n, events[0]))
  }

  predicate ShowsNews(w: World, n: News) {
    !w.pc.Done? && w.job.status != Cancelled ==>
      w.job.response == n.response && w.job.candidates == n.candidates && w.job.failed == n.failed
  }

  lemma StepShowsNews(w: World, e: Event, n: News)
    requires Inv(w) && Enabled(w, e) && ShowsNews(w, n)
    ensures ShowsNews(Step(w, e), Heard(n, e))
  {
    if !e.PublishScanned? && !e.PublishResponse? {
      NoNews(w, e);
    }
  }

  lemma NoNews(w: World, e: Event)
    requires Inv(w) && Enabled(w, e) && !e.PublishScanned? && !e.PublishResponse?
    ensures var job := Step(w, e).job;
      !Step(w, e).pc.Done? && job.status != Cancelled ==>
        w.job.status != Cancelled && job.response == w.job.response && job.candidates == w.job.candidates
        && job.failed == w.job.failed
  {
  }

  lemma {:induction false} RunShowsNews(w: World, events: seq<Event>, n: News)
    requires Inv(w) && Possible(w, events) && ShowsNews(w, n)
    ensures ShowsNews(After(w, events), NewsOf(events, n))
    decreases events
  {
    if events != [] {
      StepKeepsInv(w, events[0]);
      StepShowsNews(w, events[0], n);
      RunShowsNews(Step(w, events[0]), events[1..], Heard(n, events[0]));
    }
  }

  /** While the worker is busy, a job nobody cancelled shows the latest published response with its candidates and
      the latest published failures. */
  lemma LatestIsShown(batchSize: nat, born: int, events: seq<Event>)
    requires Possible(Begin(batchSize, born), events)
    ensures ShowsNews(After(Begin(batchSize, born), events), NewsOf(events, News(None, Candidates([], [], []), [])))
  {
    RunShowsNews(Begin(batchSize, born), events, News(None, Candidates([], [], []), []));
  }

  // ----- what an update does -----

  /** An update takes effect unless the job is cancelled and the update does not keep it so. */
  predicate TakesEffect(job: Job, p: Patch) {
    job.status == Cancelled ==> p.status == Some(Cancelled)
  }

  /** The later of two patches, field by field. */
  function Later<T>(p: Option<T>, q: Option<T>): Option<T> {
    if q.Some? then q else p
  }

  function Merged(p: Patch, q: Patch): Patch {
    Patch(Later(p.status, q.status), Later(p.total, q.total), Later(p.scanned, q.scanned),
      Later(p.currentSymbol, q.currentSymbol), Later(p.phase, q.phase), Later(p.completedAt, q.completedAt),
      Later(p.response, q.response), Later(p.candidates, q.candidates), Later(p.warnings, q.warnings),
      Later(p.failed, q.failed), Later(p.latestError, q.latestError))
  }

  predicate Sets<T(==)>(p: Option<T>, before: T, after: T) {
    after == if p.Some? then p.value else before
  }

  /** An update that takes effect sets the fields it names and no others. */
  lemma UpdateSetsItsFields(job: Job, p: Patch, now: int)
    requires TakesEffect(job, p)
    ensures var r := Updated(job, p, now);
      && Sets(p.status, job.status, r.status) && Sets(p.total, job.total, r.total) && Sets(p.scanned, job.scanned, r.scanned)
      && Sets(p.currentSymbol, job.currentSymbol, r.currentSymbol) && Sets(p.phase, job.phase, r.phase)
      && Sets(p.completedAt, job.completedAt, r.completedAt) && Sets(p.response, job.response, r.response)
      && Sets(p.candidates, job.candidates, r.candidates) && Sets(p.warnings, job.warnings, r.warnings)
      && Sets(p.failed, job.failed, r.failed) && Sets(p.latestError, job.latestError, r.latestError)
      && r.updatedAt == now && r.cancelRequested == job.cancelRequested
  {
  }

  /** A user's cancellation keeps everything but the state of the job, and says whether there are partial results. */
  lemma CancellationTells(job: Job, now: int)
    ensures var r := CancelledJob(job, now);
      && r.cancelRequested && r.completedAt == Some(now) && r.updatedAt == now && r.currentSymbol == job.currentSymbol
      && r.phase == "cancel_requested" && r.latestError == Some("Scan cancelled by user.")
      && Shown(r) == Shown(job).(status := Cancelled)
      && r.warnings == [if job.response == None then "Scan cancelled."
                        else "Scan cancelled. Partial results remain advisory-only."]
  {
  }

  /** Two updates in a row act as one with their fields merged; an update without fields only touches the time;
      and one that the guard rejects changes nothing. */
  lemma UpdatesCompose(job: Job, p: Patch, q: Patch, at: int, now: int)
    ensures TakesEffect(job, p) && TakesEffect(Updated(job, p, at), q) ==>
      Updated(Updated(job, p, at), q, now) == Patched(job, Merged(p, q), now)
    ensures Updated(job, Patch(), now) == if job.status == Cancelled then job else job.(updatedAt := now)
    ensures TakesEffect(job, p) ==>
      Updated(job, p, now).updatedAt == now && Updated(job, p, now).cancelRequested == job.cancelRequested
    ensures !TakesEffect(job, p) ==> Updated(job, p, now) == job
    ensures job.cancelRequested ==> Updated(job, p, now).cancelRequested
  {
  }

  // ----- the registry object -----

  class ScannerJobManager {
    var jobs: map<string, Job>

    constructor ()
      ensures jobs == map[]
    {
      jobs := map[];
    }

    method Create(scanId: string, now: int)
      modifies this
      ensures jobs == old(jobs)[scanId := NewJob(now)]
    {
      jobs := jobs[scanId := NewJob(now)];
    }

    method SetThread(scanId: string, now: int)
      modifies this
      ensures jobs == if scanId in old(jobs) then old(jobs)[scanId := old(jobs)[scanId].(updatedAt := now)] else old(jobs)
    {
      if scanId in jobs {
        jobs := jobs[scanId := jobs[scanId].(updatedAt := now)];
      }
    }

    method Get(scanId: string) returns (job: Option<Job>)
      ensures job == if scanId in jobs then Some(jobs[scanId]) else None
    {
      job := if scanId in jobs then Some(jobs[scanId]) else None;
    }

    method Update(scanId: string, p: Patch, now: int) returns (result: Option<Job>)
      modifies this
      ensures scanId !in old(jobs) ==> jobs == old(jobs) && result == None
      ensures scanId in old(jobs) ==>
        jobs == old(jobs)[scanId := Updated(old(jobs)[scanId], p, now)] && result == Some(jobs[scanId])
    {
      if scanId !in jobs {
        return None;
      }
      var job := jobs[scanId];
      if job.status == Cancelled && p.status != Some(Cancelled) {
        assert jobs == jobs[scanId := job];
        return Some(job);
      }
      job := job.(status := Or(p.status, job.status));
      job := job.(total := Or(p.total, job.total));
      job := job.(scanned := Or(p.scanned, job.scanned));
      job := job.(currentSymbol := Or(p.currentSymbol, job.currentSymbol));
      job := job.(phase := Or(p.phase, job.phase));
      job := job.(completedAt := Or(p.completedAt, job.completedAt));
      job := job.(response := Or(p.response, job.response));
      job := job.(candidates := Or(p.candidates, job.candidates));
      job := job.(warnings := Or(p.warnings, job.warnings));
      job := job.(failed := Or(p.failed, job.failed));
      job := job.(latestError := Or(p.latestError, job.latestError));
      job := job.(updatedAt := now);
      jobs := jobs[scanId := job];
      result := Some(job);
    }

    method Cancel(scanId: string, now: int) returns (result: Option<Job>)
      modifies this
      ensures scanId !in old(jobs) ==> jobs == old(jobs) && result == None
      ensures scanId in old(jobs) ==>
        jobs == old(jobs)[scanId := CancelledJob(old(jobs)[scanId], now)] && result == Some(jobs[scanId])
    {
      if scanId !in jobs {
        return None;
      }
      var job := jobs[scanId];
      job := job.(cancelRequested := true);
      job := job.(status := Cancelled, phase := "cancel_requested", completedAt := Some(now));
      job := job.(latestError := Some("Scan cancelled by user."));
      job := job.(warnings := [if job.response.Some? then "Scan cancelled. Partial results remain advisory-only."
                               else "Scan cancelled."]);
      job := job.(updatedAt := now);
      jobs := jobs[scanId := job];
      result := Some(job);
    }
  }
}
