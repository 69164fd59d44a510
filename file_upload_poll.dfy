/**
 * Background processing of uploaded files. After upload the back end analyses
 * each PDF; the client polls `GET {base}/{uuid}` until the analysis is
 * completed or failed, and keeps a status entry per file identifier.
 *
 * A poll loop is modelled as a state machine over the events that drive it:
 * a pending timer firing, the in-flight request answering, and a cancel call.
 * Time itself (the 2000 ms interval) is not modelled, only the order of events.
 */
module FileUploadPoll {
  import opened Wrappers
  import opened Strings

  /** `pollInterval = 2000`, in milliseconds. */
  const DefaultPollInterval: nat := 2000
  /** `maxRetries = 30`; `trackFile` never overrides it. */
  const DefaultMaxRetries: nat := 30

  datatype ProcessingStatus = Processing | Completed | Failed

  /** The analysis fields the wizard uses. */
  datatype FileAnalysis = FileAnalysis(pages: int, title: string, description: string)

  /** One entry of the status map; the error is kept as its message. */
  datatype FileStatus = FileStatus(status: ProcessingStatus, analysis: Option<FileAnalysis>, error: Option<string>)

  /** What one status request yields. */
  datatype PollResponse =
    | RequestFailed(message: string)
    | HttpError(statusCode: nat)
    | NotJson
    | Body(status: ProcessingStatus, analysis: Option<FileAnalysis>, errorMessage: Option<string>)

  /** The responses that end in the `catch` block, and the message they carry. */
  function ThrownMessage(r: PollResponse): (m: Option<string>)
    ensures m.Some? <==> r.RequestFailed? || r.HttpError?
  {
    match r
    case RequestFailed(message) => Some(message)
    case HttpError(code) => Some("HTTP error! status: " + NatToString(code))
    case _ => None
  }

  /** A request in flight, a timer pending, or neither. */
  datatype Phase = Requesting | Waiting | Stopped

  datatype PollLoop = PollLoop(retryCount: nat, phase: Phase, cancelled: bool)

  datatype PollEvent = TimerFired | ResponseArrived(response: PollResponse) | CancelRequested

  /** What a step of the loop reports to its owner. */
  datatype Callback =
    | Silent
    | CompleteWith(status: ProcessingStatus, analysis: Option<FileAnalysis>, errorMessage: Option<string>)
    | ErrorWith(message: string)

  /** `checkStatus()` runs straight away, so a loop starts with a request in flight. */
  const LoopStart: PollLoop := PollLoop(0, Requesting, false)

  /** How the loop reacts to the answer of its request (lines 87-117). */
  function HandleResponse(maxRetries: nat, st: PollLoop, r: PollResponse): (res: (PollLoop, Callback))
    ensures res.0.cancelled == st.cancelled
  {
    match r
    case NotJson => (st.(phase := Waiting), Silent)
    case Body(status, analysis, errorMessage) =>
      if status == Processing then (st.(phase := Waiting), Silent)
      else (st.(phase := Stopped), CompleteWith(status, analysis, errorMessage))
    case _ =>
      var n := st.retryCount + 1;
      if n >= maxRetries then (PollLoop(n, Stopped, st.cancelled), ErrorWith(ThrownMessage(r).value))
      else (PollLoop(n, Waiting, st.cancelled), Silent)
  }

  /**
   * One event, as the loop behaves once cancellation is honoured: cancelling
   * clears a pending timer and marks the loop, and an answer that arrives
   * after the mark is dropped.
   */
  function PollStep(maxRetries: nat, st: PollLoop, ev: PollEvent): (PollLoop, Callback) {
    match ev
    case TimerFired =>
      if st.phase == Waiting then (st.(phase := Requesting), Silent) else (st, Silent)
    case CancelRequested =>
      (st.(cancelled := true, phase := if st.phase == Waiting then Stopped else st.phase), Silent)
    case ResponseArrived(r) =>
      if st.phase != Requesting then (st, Silent)
      else if st.cancelled then (st.(phase := Stopped), Silent)
      else HandleResponse(maxRetries, st, r)
  }

  /**
   * One event, as `pollFileStatus` is written: the cancel function only calls
   * `clearTimeout` on the last timer, so a request already in flight still
   * answers, may call `onComplete`/`onError`, and may even schedule a new poll.
   */
  function PollStepAsWritten(maxRetries: nat, st: PollLoop, ev: PollEvent): (PollLoop, Callback) {
    match ev
    case TimerFired =>
      if st.phase == Waiting then (st.(phase := Requesting), Silent) else (st, Silent)
    case CancelRequested =>
      (st.(phase := if st.phase == Waiting then Stopped else st.phase), Silent)
    case ResponseArrived(r) =>
      if st.phase != Requesting then (st, Silent)
      else HandleResponse(maxRetries, st, r)
  }

  function Reported(cb: Callback): seq<Callback> {
    if cb.Silent? then [] else [cb]
  }

  /** A sequence of events: the final loop state and the callbacks made, in order. */
  function Run(maxRetries: nat, st: PollLoop, evs: seq<PollEvent>): (PollLoop, seq<Callback>)
    decreases |evs|
  {
    if evs == [] then (st, [])
    else
      var step := PollStep(maxRetries, st, evs[0]);
      var rest := Run(maxRetries, step.0, evs[1..]);
      (rest.0, Reported(step.1) + rest.1)
  }

  function RunAsWritten(maxRetries: nat, st: PollLoop, evs: seq<PollEvent>): (PollLoop, seq<Callback>)
    decreases |evs|
  {
    if evs == [] then (st, [])
    else
      var step := PollStepAsWritten(maxRetries, st, evs[0]);
      var rest := RunAsWritten(maxRetries, step.0, evs[1..]);
      (rest.0, Reported(step.1) + rest.1)
  }

  /** A step calls back only when it stops the loop, and a stopped loop stays stopped and silent. */
  lemma StepCallbackStops(maxRetries: nat, st: PollLoop, ev: PollEvent)
    ensures !PollStep(maxRetries, st, ev).1.Silent? ==> PollStep(maxRetries, st, ev).0.phase == Stopped
    ensures st.phase == Stopped ==>
      PollStep(maxRetries, st, ev).0.phase == Stopped && PollStep(maxRetries, st, ev).1.Silent?
    ensures st.cancelled ==> PollStep(maxRetries, st, ev).0.cancelled && PollStep(maxRetries, st, ev).1.Silent?
  {
  }

  /** A stopped loop makes no further callbacks. */
  lemma {:induction false} StoppedStaysSilent(maxRetries: nat, st: PollLoop, evs: seq<PollEvent>)
    requires st.phase == Stopped
    ensures Run(maxRetries, st, evs).1 == []
    decreases |evs|
  {
    if evs != [] {
      StepCallbackStops(maxRetries, st, evs[0]);
      StoppedStaysSilent(maxRetries, PollStep(maxRetries, st, evs[0]).0, evs[1..]);
    }
  }

  /** Whatever happens, a poll loop reports to its owner at most once. */
  lemma {:induction false} AtMostOneCallback(maxRetries: nat, st: PollLoop, evs: seq<PollEvent>)
    ensures |Run(maxRetries, st, evs).1| <= 1
    decreases |evs|
  {
    if evs != [] {
      var step := PollStep(maxRetries, st, evs[0]);
      StepCallbackStops(maxRetries, st, evs[0]);
      if step.1.Silent? {
        AtMostOneCallback(maxRetries, step.0, evs[1..]);
      } else {
        StoppedStaysSilent(maxRetries, step.0, evs[1..]);
      }
    }
  }

  /** Once cancelled, a loop never reports, whatever is still in flight. */
  lemma {:induction false} CancelledStaysSilent(maxRetries: nat, st: PollLoop, evs: seq<PollEvent>)
    requires st.cancelled
    ensures Run(maxRetries, st, evs).1 == []
    ensures Run(maxRetries, st, evs).0.cancelled
    decreases |evs|
  {
    if evs != [] {
      StepCallbackStops(maxRetries, st, evs[0]);
      CancelledStaysSilent(maxRetries, PollStep(maxRetries, st, evs[0]).0, evs[1..]);
    }
  }

  /**
   * The retry counter goes up by one exactly for a failed request the loop was
   * waiting for, and never goes down: answers that are not JSON and
   * still-processing answers do not count, nor reset the counter.
   */
  lemma RetryCountsFailures(maxRetries: nat, st: PollLoop, ev: PollEvent)
    ensures PollStep(maxRetries, st, ev).0.retryCount ==
      st.retryCount +
        (if ev.ResponseArrived? && st.phase == Requesting && !st.cancelled
            && ThrownMessage(ev.response).Some? then 1 else 0)
  {
  }

  /** `onError` is called exactly when a failure brings the counter to `maxRetries`. */
  lemma ErrorAtRetryLimit(maxRetries: nat, st: PollLoop, ev: PollEvent)
    ensures PollStep(maxRetries, st, ev).1.ErrorWith? <==>
      ev.ResponseArrived? && st.phase == Requesting && !st.cancelled
      && ThrownMessage(ev.response).Some? && st.retryCount + 1 >= maxRetries
    ensures PollStep(maxRetries, st, ev).1.ErrorWith? ==>
      PollStep(maxRetries, st, ev).1.message == ThrownMessage(ev.response).value
  {
  }

  /** `onComplete` is called exactly for a completed or failed answer the loop was waiting for. */
  lemma CompleteOnFinalStatus(maxRetries: nat, st: PollLoop, ev: PollEvent)
    ensures PollStep(maxRetries, st, ev).1.CompleteWith? <==>
      ev.ResponseArrived? && st.phase == Requesting && !st.cancelled
      && ev.response.Body? && ev.response.status != Processing
  {
  }

  /** Thirty failed requests in a row end the loop with the last error. */
  lemma {:induction false} ThirtyFailuresReportError(st: PollLoop, messages: seq<string>)
    requires st.phase == Requesting && !st.cancelled && st.retryCount + |messages| == DefaultMaxRetries
    requires |messages| > 0
    ensures Run(DefaultMaxRetries, st, FailThenRetry(messages)).1 == [ErrorWith(messages[|messages| - 1])]
    decreases |messages|
  {
    if |messages| > 1 {
      var st1 := PollLoop(st.retryCount + 1, Waiting, false);
      var evs := FailThenRetry(messages);
      assert evs[1..][1..] == FailThenRetry(messages[1..]);
      assert Run(DefaultMaxRetries, st1, evs[1..]).1 == Run(DefaultMaxRetries, st1.(phase := Requesting), evs[1..][1..]).1;
      ThirtyFailuresReportError(st1.(phase := Requesting), messages[1..]);
    }
  }

  /** Each message is a failed request; between two of them the retry timer fires. */
  function FailThenRetry(messages: seq<string>): seq<PollEvent> {
    if messages == [] then []
    else if |messages| == 1 then [ResponseArrived(RequestFailed(messages[0]))]
    else [ResponseArrived(RequestFailed(messages[0])), TimerFired] + FailThenRetry(messages[1..])
  }

  /**
   * As written, cancelling while the first request is in flight does not stop
   * the loop: the answer still reaches `onComplete`.
   */
  lemma CancelDuringRequestAsWritten()
    ensures var evs := [CancelRequested, ResponseArrived(Body(Completed, None, None))];
      RunAsWritten(DefaultMaxRetries, LoopStart, evs).1 == [CompleteWith(Completed, None, None)]
      && Run(DefaultMaxRetries, LoopStart, evs).1 == []
  {
  }

  /**
   * As written, an answer that is not JSON after a cancel even schedules a new
   * poll, so the loop keeps running and later reports.
   */
  lemma CancelThenReschedulesAsWritten()
    ensures var evs := [CancelRequested, ResponseArrived(NotJson), TimerFired,
                        ResponseArrived(Body(Failed, None, Some("bad pdf")))];
      RunAsWritten(DefaultMaxRetries, LoopStart, evs).1 == [CompleteWith(Failed, None, Some("bad pdf"))]
      && Run(DefaultMaxRetries, LoopStart, evs).1 == []
  {
  }

  /** As written, too, a step calls back only when it stops the loop, and a stopped loop stays stopped and silent. */
  lemma StepCallbackStopsAsWritten(maxRetries: nat, st: PollLoop, ev: PollEvent)
    ensures !PollStepAsWritten(maxRetries, st, ev).1.Silent? ==> PollStepAsWritten(maxRetries, st, ev).0.phase == Stopped
    ensures st.phase == Stopped ==>
      PollStepAsWritten(maxRetries, st, ev).0.phase == Stopped && PollStepAsWritten(maxRetries, st, ev).1.Silent?
  {
  }

  /** As written, a stopped loop makes no further callbacks. */
  lemma {:induction false} StoppedStaysSilentAsWritten(maxRetries: nat, st: PollLoop, evs: seq<PollEvent>)
    requires st.phase == Stopped
    ensures RunAsWritten(maxRetries, st, evs).1 == []
    ensures RunAsWritten(maxRetries, st, evs).0.phase == Stopped
    decreases |evs|
  {
    if evs != [] {
      StepCallbackStopsAsWritten(maxRetries, st, evs[0]);
      StoppedStaysSilentAsWritten(maxRetries, PollStepAsWritten(maxRetries, st, evs[0]).0, evs[1..]);
    }
  }

  /** As written, and whatever the events and cancels, a poll loop reports to its owner at most once. */
  lemma {:induction false} AtMostOneCallbackAsWritten(maxRetries: nat, st: PollLoop, evs: seq<PollEvent>)
    ensures |RunAsWritten(maxRetries, st, evs).1| <= 1
    decreases |evs|
  {
    if evs != [] {
      var step := PollStepAsWritten(maxRetries, st, evs[0]);
      StepCallbackStopsAsWritten(maxRetries, st, evs[0]);
      if step.1.Silent? {
        AtMostOneCallbackAsWritten(maxRetries, step.0, evs[1..]);
      } else {
        StoppedStaysSilentAsWritten(maxRetries, step.0, evs[1..]);
      }
    }
  }

  /** The two loops differ only in how they treat a cancel: on any other event of a loop not cancelled, they agree. */
  lemma AsWrittenAgreesUncancelled(maxRetries: nat, st: PollLoop, ev: PollEvent)
    requires !st.cancelled && !ev.CancelRequested?
    ensures PollStepAsWritten(maxRetries, st, ev) == PollStep(maxRetries, st, ev)
    ensures !PollStep(maxRetries, st, ev).0.cancelled
  {
  }

  /** A run with no cancel in it is the same in both loops. */
  lemma {:induction false} RunAgreesWithoutCancel(maxRetries: nat, st: PollLoop, evs: seq<PollEvent>)
    requires !st.cancelled
    requires forall i :: 0 <= i < |evs| ==> !evs[i].CancelRequested?
    ensures RunAsWritten(maxRetries, st, evs) == Run(maxRetries, st, evs)
    decreases |evs|
  {
    if evs != [] {
      AsWrittenAgreesUncancelled(maxRetries, st, evs[0]);
      RunAgreesWithoutCancel(maxRetries, PollStep(maxRetries, st, evs[0]).0, evs[1..]);
    }
  }

  /** As written, a cancel while the loop waits on its timer does stop it for good. */
  lemma CancelWhileWaitingStopsAsWritten(maxRetries: nat, st: PollLoop, evs: seq<PollEvent>)
    requires st.phase == Waiting
    ensures RunAsWritten(maxRetries, st, [CancelRequested] + evs).1 == []
  {
    var st1 := PollStepAsWritten(maxRetries, st, CancelRequested).0;
    assert ([CancelRequested] + evs)[1..] == evs;
    StoppedStaysSilentAsWritten(maxRetries, st1, evs);
  }

  // ----- the `useFileProcessing` hook -----

  /**
   * The hook's state: the status map it exposes, the poll loop started for each
   * identifier, and the identifiers whose cancel function is still stored.
   */
  datatype TrackerState = TrackerState(
    statuses: map<string, FileStatus>,
    loops: map<string, PollLoop>,
    cancelFunctions: set<string>)

  predicate TrackerValid(t: TrackerState) {
    t.loops.Keys <= t.statuses.Keys && t.cancelFunctions <= t.loops.Keys
  }

  const EmptyTracker: TrackerState := TrackerState(map[], map[], {})

  /** `trackFile(uuid)`: a fresh "processing" entry and a new poll loop whose cancel function is kept. */
  function TrackFile(t: TrackerState, uuid: string): (r: TrackerState)
    ensures TrackerValid(t) ==> TrackerValid(r)
  {
    TrackerState(
      t.statuses[uuid := FileStatus(Processing, None, None)],
      t.loops[uuid := LoopStart],
      t.cancelFunctions + {uuid})
  }

  /** The status entry `onComplete` writes. */
  function CompletedStatus(status: ProcessingStatus, analysis: Option<FileAnalysis>, errorMessage: Option<string>): FileStatus {
    FileStatus(status, analysis,
      if status == Failed then Some(TextOr(errorMessage, "Processing failed")) else None)
  }

  /** What the hook does with a callback of the loop for `uuid`. */
  function ApplyCallback(t: TrackerState, uuid: string, cb: Callback): TrackerState
    requires uuid in t.statuses
  {
    match cb
    case Silent => t
    case CompleteWith(status, analysis, errorMessage) =>
      t.(statuses := t.statuses[uuid := CompletedStatus(status, analysis, errorMessage)],
         cancelFunctions := t.cancelFunctions - {uuid})
    case ErrorWith(message) =>
      t.(statuses := t.statuses[uuid := t.statuses[uuid].(error := Some(message))],
         cancelFunctions := t.cancelFunctions - {uuid})
  }

  /** An event of the poll loop for `uuid`, and its effect on the hook's state. */
  function DeliverEvent(t: TrackerState, uuid: string, ev: PollEvent): (r: TrackerState)
    requires TrackerValid(t) && uuid in t.loops
    ensures TrackerValid(r) && r.loops.Keys == t.loops.Keys
  {
    var step := PollStep(DefaultMaxRetries, t.loops[uuid], ev);
    ApplyCallback(t.(loops := t.loops[uuid := step.0]), uuid, step.1)
  }

  /** `stopTracking(uuid)`: cancel and forget the cancel function, if one is stored; the status entry stays. */
  function StopTracking(t: TrackerState, uuid: string): (r: TrackerState)
    ensures TrackerValid(t) ==> TrackerValid(r)
    ensures r.statuses == t.statuses
    ensures TrackerValid(t) ==> r.cancelFunctions == t.cancelFunctions - {uuid}
    ensures r.loops.Keys == t.loops.Keys
  {
    if uuid in t.cancelFunctions && uuid in t.loops then
      t.(loops := t.loops[uuid := PollStep(DefaultMaxRetries, t.loops[uuid], CancelRequested).0],
         cancelFunctions := t.cancelFunctions - {uuid})
    else t
  }

  /** Unmounting calls every stored cancel function. */
  function Unmount(t: TrackerState): (r: TrackerState)
    ensures TrackerValid(t) ==> TrackerValid(r)
    ensures r.statuses == t.statuses
  {
    t.(loops := map u | u in t.loops ::
         if u in t.cancelFunctions then PollStep(DefaultMaxRetries, t.loops[u], CancelRequested).0
         else t.loops[u])
  }

  /** Many events of the loop for `uuid`, in order. */
  function DeliverAll(t: TrackerState, uuid: string, evs: seq<PollEvent>): (r: TrackerState)
    requires TrackerValid(t) && uuid in t.loops
    ensures TrackerValid(r) && r.loops.Keys == t.loops.Keys
    decreases |evs|
  {
    if evs == [] then t else DeliverAll(DeliverEvent(t, uuid, evs[0]), uuid, evs[1..])
  }

  /** Events of one loop never touch another file's status entry. */
  lemma {:induction false} DeliverKeepsOtherStatuses(t: TrackerState, uuid: string, evs: seq<PollEvent>, other: string)
    requires TrackerValid(t) && uuid in t.loops && other != uuid
    ensures other in t.statuses ==>
      other in DeliverAll(t, uuid, evs).statuses && DeliverAll(t, uuid, evs).statuses[other] == t.statuses[other]
    ensures other !in t.statuses ==> other !in DeliverAll(t, uuid, evs).statuses
    decreases |evs|
  {
    if evs != [] {
      DeliverKeepsOtherStatuses(DeliverEvent(t, uuid, evs[0]), uuid, evs[1..], other);
    }
  }

  /** After the loop for `uuid` is cancelled, nothing it still receives changes the status map. */
  lemma {:induction false} CancelledLoopKeepsStatuses(t: TrackerState, uuid: string, evs: seq<PollEvent>)
    requires TrackerValid(t) && uuid in t.loops && t.loops[uuid].cancelled
    ensures DeliverAll(t, uuid, evs).statuses == t.statuses
    decreases |evs|
  {
    if evs != [] {
      StepCallbackStops(DefaultMaxRetries, t.loops[uuid], evs[0]);
      CancelledLoopKeepsStatuses(DeliverEvent(t, uuid, evs[0]), uuid, evs[1..]);
    }
  }

  /**
   * Removing a file right after it started being tracked: whatever answers
   * are still in flight, its entry stays "processing" with no analysis and no error.
   */
  lemma StopRightAfterTrack(t: TrackerState, uuid: string, evs: seq<PollEvent>)
    requires TrackerValid(t)
    ensures var s := StopTracking(TrackFile(t, uuid), uuid);
      uuid in s.loops &&
      DeliverAll(s, uuid, evs).statuses[uuid] == FileStatus(Processing, None, None)
  {
    var s := StopTracking(TrackFile(t, uuid), uuid);
    CancelledLoopKeepsStatuses(s, uuid, evs);
  }

  /** A completed answer is recorded as completed with its analysis; a failed one with its message, or "Processing failed". */
  lemma CompletionRecorded(t: TrackerState, uuid: string, r: PollResponse)
    requires TrackerValid(t) && uuid in t.loops
    requires t.loops[uuid].phase == Requesting && !t.loops[uuid].cancelled
    requires r.Body? && r.status != Processing
    ensures var s := DeliverEvent(t, uuid, ResponseArrived(r));
      s.statuses[uuid].status == r.status && s.statuses[uuid].analysis == r.analysis
      && (r.status == Completed ==> s.statuses[uuid].error == None)
      && (r.status == Failed ==> s.statuses[uuid].error == Some(TextOr(r.errorMessage, "Processing failed")))
      && uuid !in s.cancelFunctions
  {
  }

  // ----- the hook driven by the loop as written -----

  /** An event of the loop for `uuid`, with the loop as written. */
  function DeliverEventAsWritten(t: TrackerState, uuid: string, ev: PollEvent): (r: TrackerState)
    requires TrackerValid(t) && uuid in t.loops
    ensures TrackerValid(r) && r.loops.Keys == t.loops.Keys
  {
    var step := PollStepAsWritten(DefaultMaxRetries, t.loops[uuid], ev);
    ApplyCallback(t.(loops := t.loops[uuid := step.0]), uuid, step.1)
  }

  /** `stopTracking(uuid)` as written: the stored cancel function only clears a pending timer. */
  function StopTrackingAsWritten(t: TrackerState, uuid: string): (r: TrackerState)
    ensures TrackerValid(t) ==> TrackerValid(r)
    ensures r.statuses == t.statuses
    ensures TrackerValid(t) ==> r.cancelFunctions == t.cancelFunctions - {uuid}
    ensures r.loops.Keys == t.loops.Keys
  {
    if uuid in t.cancelFunctions && uuid in t.loops then
      t.(loops := t.loops[uuid := PollStepAsWritten(DefaultMaxRetries, t.loops[uuid], CancelRequested).0],
         cancelFunctions := t.cancelFunctions - {uuid})
    else t
  }

  /** Unmounting as written: every stored cancel function clears its pending timer. */
  function UnmountAsWritten(t: TrackerState): (r: TrackerState)
    ensures TrackerValid(t) ==> TrackerValid(r)
    ensures r.statuses == t.statuses && r.cancelFunctions == t.cancelFunctions
  {
    t.(loops := map u | u in t.loops ::
         if u in t.cancelFunctions then PollStepAsWritten(DefaultMaxRetries, t.loops[u], CancelRequested).0
         else t.loops[u])
  }

  /** Many events of the loop for `uuid`, with the loop as written. */
  function DeliverAllAsWritten(t: TrackerState, uuid: string, evs: seq<PollEvent>): (r: TrackerState)
    requires TrackerValid(t) && uuid in t.loops
    ensures TrackerValid(r) && r.loops.Keys == t.loops.Keys
    decreases |evs|
  {
    if evs == [] then t else DeliverAllAsWritten(DeliverEventAsWritten(t, uuid, evs[0]), uuid, evs[1..])
  }

  /** Without a cancel, the hook behaves the same whichever loop drives it. */
  lemma {:induction false} DeliverAllAgreesWithoutCancel(t: TrackerState, uuid: string, evs: seq<PollEvent>)
    requires TrackerValid(t) && uuid in t.loops && !t.loops[uuid].cancelled
    requires forall i :: 0 <= i < |evs| ==> !evs[i].CancelRequested?
    ensures DeliverAllAsWritten(t, uuid, evs) == DeliverAll(t, uuid, evs)
    decreases |evs|
  {
    if evs != [] {
      AsWrittenAgreesUncancelled(DefaultMaxRetries, t.loops[uuid], evs[0]);
      DeliverAllAgreesWithoutCancel(DeliverEvent(t, uuid, evs[0]), uuid, evs[1..]);
    }
  }

  /** As written, a file whose loop has stopped keeps its status entry whatever still arrives. */
  lemma {:induction false} StoppedLoopKeepsStatusesAsWritten(t: TrackerState, uuid: string, evs: seq<PollEvent>)
    requires TrackerValid(t) && uuid in t.loops && t.loops[uuid].phase == Stopped
    ensures DeliverAllAsWritten(t, uuid, evs).statuses == t.statuses
    decreases |evs|
  {
    if evs != [] {
      StepCallbackStopsAsWritten(DefaultMaxRetries, t.loops[uuid], evs[0]);
      StoppedLoopKeepsStatusesAsWritten(DeliverEventAsWritten(t, uuid, evs[0]), uuid, evs[1..]);
    }
  }

  /** As written, `stopTracking` while the loop waits on its timer does freeze the file's status entry. */
  lemma StopWhileWaitingKeepsStatusesAsWritten(t: TrackerState, uuid: string, evs: seq<PollEvent>)
    requires TrackerValid(t) && uuid in t.cancelFunctions && t.loops[uuid].phase == Waiting
    ensures var s := StopTrackingAsWritten(t, uuid);
      uuid in s.loops && DeliverAllAsWritten(s, uuid, evs).statuses == t.statuses
  {
    StoppedLoopKeepsStatusesAsWritten(StopTrackingAsWritten(t, uuid), uuid, evs);
  }

  /**
   * As written, removing a file right after it started being tracked does not
   * stop its first request: a completed answer is still recorded, where the
   * hook with cancellation honoured keeps the "processing" entry.
   */
  lemma StopThenAnswerRecordedAsWritten(t: TrackerState, uuid: string, a: FileAnalysis)
    requires TrackerValid(t)
    ensures var s := StopTrackingAsWritten(TrackFile(t, uuid), uuid);
      uuid in s.loops &&
      DeliverEventAsWritten(s, uuid, ResponseArrived(Body(Completed, Some(a), None))).statuses[uuid]
        == FileStatus(Completed, Some(a), None)
    ensures var s := StopTracking(TrackFile(t, uuid), uuid);
      uuid in s.loops &&
      DeliverEvent(s, uuid, ResponseArrived(Body(Completed, Some(a), None))).statuses[uuid]
        == FileStatus(Processing, None, None)
  {
  }

  /** The hook's state as an object, the way the wizard holds it. */
  class FileTracker {
    var statuses: map<string, FileStatus>
    var loops: map<string, PollLoop>
    var cancelFunctions: set<string>

    function State(): TrackerState
      reads this
    {
      TrackerState(statuses, loops, cancelFunctions)
    }

    constructor ()
      ensures State() == EmptyTracker
    {
      statuses := map[];
      loops := map[];
      cancelFunctions := {};
    }

    method Track(uuid: string)
      modifies this
      ensures State() == TrackFile(old(State()), uuid)
    {
      statuses := statuses[uuid := FileStatus(Processing, None, None)];
      loops := loops[uuid := LoopStart];
      cancelFunctions := cancelFunctions + {uuid};
    }

    method OnPollEvent(uuid: string, ev: PollEvent)
      requires TrackerValid(State()) && uuid in loops
      modifies this
      ensures State() == DeliverEvent(old(State()), uuid, ev)
    {
      var step := PollStep(DefaultMaxRetries, loops[uuid], ev);
      loops := loops[uuid := step.0];
      match step.1
      case Silent =>
      case CompleteWith(status, analysis, errorMessage) =>
        statuses := statuses[uuid := CompletedStatus(status, analysis, errorMessage)];
        cancelFunctions := cancelFunctions - {uuid};
      case ErrorWith(message) =>
        statuses := statuses[uuid := statuses[uuid].(error := Some(message))];
        cancelFunctions := cancelFunctions - {uuid};
    }

    method Stop(uuid: string)
      modifies this
      ensures State() == StopTracking(old(State()), uuid)
    {
      if uuid in cancelFunctions && uuid in loops {
        loops := loops[uuid := PollStep(DefaultMaxRetries, loops[uuid], CancelRequested).0];
        cancelFunctions := cancelFunctions - {uuid};
      }
    }

    method OnUnmount()
      modifies this
      ensures State() == Unmount(old(State()))
    {
      loops := map u | u in loops ::
        if u in cancelFunctions then PollStep(DefaultMaxRetries, loops[u], CancelRequested).0
        else loops[u];
    }
  }
}
