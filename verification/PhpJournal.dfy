/**
 The durable record of the PHP client (sdk/php/src/WorkspaceSession.php): an explicit stage,
 the pending command, the evidence about a checkpoint's reopening, and what each step saves.
 */
module PhpJournal {
  import opened Exchange
  import opened Prelude
  import opened Protocol

  datatype Action = OpenAction | FinalizeAction | CheckpointAction | AbortAction | HeartbeatAction

  datatype Stage =
    | CreateStage | OpenStage | HydrateStage | ReadyStage | HeartbeatStage
    | CaptureStage | SubmissionStage | UploadStage | SealStage | FinalizeStage | ReopenStage
    | AbortStage | DoneStage

  datatype Recovery =
    | Provisioning | ReadyForWork | Capturing | UnknownOutcome | PublishedNeedsReopen | KnownFailed
    | WasFinalized | WasAborted | HydrationIncomplete | HydrationFailed | ReopenAbandoned

  /** A complete 401 or 403 to one transmission of the reopening, bound to its attempt. */
  datatype Proof = Proof(key: Key, request: Request, status: int, attempt: nat)
  datatype Checkpoint = Checkpoint(run: RunId, operation: OperationId)
  datatype Abandoned = Abandoned(command: Pending, proof: Proof)

  datatype Record = Record(
    workspace: Option<nat>, mode: Mode, run: Option<Run>, pending: Option<Pending>,
    action: Option<Action>, stage: Stage, recovery: Recovery,
    capture: Option<Capture>, receipts: seq<Receipt>, submission: Option<SubmissionId>, uploadIndex: nat,
    accepted: Option<Checkpoint>, attempts: nat, possible: bool, proof: Option<Proof>, abandoned: Option<Abandoned>,
    history: History)

  /** An exception: its class's status, the status of the complete response behind it if any, and what its body names. */
  datatype Failure = Failure(status: int, code: Code, httpStatus: int, operationId: Option<OperationId>, operationFailed: bool)

  datatype Value =
    | WorkspaceNamed(workspace: nat)
    | RunView(run: Run)
    | SubmissionView(submission: SubmissionId)
    | ReceiptView(receipt: Receipt)
    | Finalization(operation: OperationId, finalized: bool)
    | OperationStarted(operation: OperationId)

  datatype Reply = Answered(value: Value) | Threw(failure: Failure)
  datatype Exit = Done | Raised | Crashed

  function RunIdOf(record: Record): Option<RunId> {
    if record.run.None? then None else Some(record.run.value.id)
  }

  /** The command a stage sends. */
  predicate OwnRequest(stage: Stage, request: Request) {
    match stage
    case CreateStage => request.CreateWorkspace?
    case OpenStage | ReopenStage => request.OpenRun?
    case SubmissionStage => request.CreateSubmission?
    case UploadStage => request.UploadFile?
    case SealStage => request.SealSubmission?
    case FinalizeStage => request.FinalizeRun?
    case AbortStage => request.AbortRun?
    case HeartbeatStage => request.RenewLease?
    case _ => false
  }

  // ---------------------------------------------------------------- one command

  /** `prepare`, when nothing is pending. */
  function Prepare(record: Record, key: Key, request: Request): Record {
    record.(pending := Some(Pending(key, request, Prepared, None)))
  }

  /** The save before the request leaves. A retry of the reopening may be accepted even if no response is ever read. */
  function Begin(record: Record): Record
    requires record.pending.Some?
  {
    var begun := record.(pending := Some(record.pending.value.(phase := Dispatched)));
    if record.stage.ReopenStage? then begun.(proof := None, possible := true, attempts := record.attempts + 1) else begun
  }

  function WithOperation(record: Record, operation: Option<OperationId>): Record
    requires record.pending.Some?
  {
    if operation.None? then record else record.(pending := Some(record.pending.value.(operationId := operation)))
  }

  function Uncertain(record: Record): Record
    requires record.pending.Some?
  {
    record.(pending := Some(record.pending.value.(phase := OutcomeUnknown)))
  }

  /** A complete 4xx response that names no operation and leaves none open proves that its transmission was refused. */
  predicate CleanRejection(request: Request, failure: Failure) {
    && ClientError(failure.httpStatus) && !failure.code.PublicationOutcomeUnknown? && failure.operationId.None?
    && !LeavesOpen(request, failure.httpStatus, failure.code)
  }

  predicate KnownRejection(failure: Failure) { ClientError(failure.status) && !failure.code.PublicationOutcomeUnknown? }

  /** Evidence the client accepts that this transmission of the reopening was not accepted. */
  predicate RefusesReopening(failure: Failure) {
    && (failure.httpStatus == 401 || failure.httpStatus == 403)
    && (failure.code.Unauthenticated? || failure.code.Forbidden?)
  }

  /** The handler of `dispatch` for the reopening of a checkpoint; `prior` is the flag as it was before this attempt. */
  function FailReopening(record: Record, prior: bool, reading: bool, failure: Failure): Record
    requires record.pending.Some?
  {
    var kept := WithOperation(Uncertain(record), failure.operationId).(recovery := PublishedNeedsReopen);
    if !prior && !reading && kept.pending.value.operationId.None? && RefusesReopening(failure) then
      kept.(possible := false,
            proof := Some(Proof(kept.pending.value.key, kept.pending.value.request, failure.httpStatus, record.attempts)))
    else kept
  }

  /** The exception in force after the run lookup of an INVALID_TRANSITION. */
  function Effective(record: Record, failure: Failure, expired: bool): Failure {
    if failure.code.InvalidTransition? && record.run.Some? && expired then Failure(410, RunExpired, 0, None, false) else failure
  }

  /** What a drop does to the history: an operation's outcome was read, or the transmission was refused, or nobody knows. */
  function Ended(record: Record, error: Failure, failure: Failure): History
    requires record.pending.Some?
  {
    var p := record.pending.value;
    if error.operationFailed then record.history.(settled := record.history.settled + {p.key})
    else if CleanRejection(p.request, failure) then record.history
    else record.history.(blind := record.history.blind + {p.key})
  }

  /** The handler of `dispatch` for every other command. */
  function FailCommand(record: Record, uncertain: bool, reading: bool, failure: Failure, expired: bool): Record
    requires record.pending.Some?
  {
    var error := Effective(record, failure, expired);
    if !error.operationFailed && (!KnownRejection(error) || uncertain || reading) then
      WithOperation(Uncertain(record), error.operationId).(
        recovery := if record.recovery.PublishedNeedsReopen? then record.recovery else UnknownOutcome)
    else
      record.(
        pending := None, action := None, stage := DoneStage, recovery := KnownFailed, history := Ended(record, error, failure))
  }

  function Fail(record: Record, uncertain: bool, prior: bool, reading: bool, failure: Failure, expired: bool): Record
    requires record.pending.Some?
  {
    if record.stage.ReopenStage? then FailReopening(record, prior, reading, failure)
    else FailCommand(record, uncertain, reading, failure, expired)
  }

  /** The results `drive` can read for a command. */
  predicate Answers(request: Request, key: Key, value: Value) {
    match request
    case CreateWorkspace => value.WorkspaceNamed?
    case OpenRun(_) => value.RunView? && value.run.id == RunId(key)
    case CreateSubmission(_) => value.SubmissionView? && value.submission == CreatedBy(key)
    case UploadFile(_, _, _, _, entry) => value.ReceiptView? && value.receipt.path == entry.path
    case SealSubmission(_, submission, _, _) => value.SubmissionView? && value.submission == submission
    case FinalizeRun(_, _, _) => value.Finalization?
    case RenewLease(run, _) => value.RunView? && value.run.id == run
    case AbortRun(run, _) => value.RunView? && value.run.id == run && value.run.state.AbortedRun?
  }

  /** The commands that a durable operation carries out. */
  predicate Durable(request: Request) { request.CreateWorkspace? || request.OpenRun? || request.FinalizeRun? }

  /** `completed`. */
  function Completed(record: Record, next: Stage): Record { record.(pending := None, stage := next) }

  /** What `drive` makes of a result, in one save. */
  function Accept(record: Record, value: Value): Record
    requires record.pending.Some? && Answers(record.pending.value.request, record.pending.value.key, value)
  {
    var p := record.pending.value;
    var noted := record.(history := record.history.(settled := record.history.settled + {p.key}));
    match p.request
    case CreateWorkspace => Completed(noted.(workspace := Some(value.workspace)), OpenStage)
    case OpenRun(_) => Completed(noted.(run := Some(value.run)), HydrateStage)
    case CreateSubmission(run) =>
      Completed(noted.(submission := Some(value.submission),
                       history := noted.history.(submissionOf := noted.history.submissionOf[run := value.submission],
                                                 receiptsOf := noted.history.receiptsOf[run := []])), UploadStage)
    case UploadFile(run, _, _, _, _) =>
      var receipts := record.receipts + [value.receipt];
      Completed(noted.(receipts := receipts, uploadIndex := record.uploadIndex + 1,
                       history := noted.history.(receiptsOf := noted.history.receiptsOf[run := receipts])), UploadStage)
    case SealSubmission(_, _, _, _) => Completed(noted.(submission := Some(value.submission)), FinalizeStage)
    case FinalizeRun(run, _, _) =>
      if !value.finalized then Completed(noted.(action := None, recovery := KnownFailed), DoneStage)
      else if record.action == Some(CheckpointAction) then
        Completed(noted.(accepted := Some(Checkpoint(run, value.operation)), attempts := 0, possible := false, proof := None,
                         recovery := PublishedNeedsReopen), ReopenStage)
      else Completed(noted.(recovery := WasFinalized, action := None), DoneStage)
    case RenewLease(_, _) => Completed(noted.(run := Some(value.run), action := None, recovery := ReadyForWork), ReadyStage)
    case AbortRun(_, _) => Completed(noted.(run := Some(value.run), action := None, recovery := WasAborted), DoneStage)
  }

  // ---------------------------------------------------------------- the other saves

  /** The end of a hydration; the next publication starts from nothing. */
  function Hydrated(record: Record): Record {
    record.(recovery := ReadyForWork, action := None, stage := ReadyStage, capture := None, submission := None, receipts := [], uploadIndex := 0)
  }

  function Captured(record: Record, capture: Capture): Record
    requires record.run.Some?
  {
    Completed(record.(capture := Some(capture),
                      history := record.history.(captureOf := record.history.captureOf[record.run.value.id := capture])), SubmissionStage)
  }

  function Finishing(record: Record, action: Action): Record
    requires record.run.Some?
  {
    record.(action := Some(action), stage := CaptureStage, recovery := Capturing,
            history := record.history.(asked := record.history.asked[record.run.value.id := action.CheckpointAction?]))
  }

  function Beating(record: Record): Record { record.(action := Some(HeartbeatAction), stage := HeartbeatStage) }

  /** `sent` counts earlier transmissions and only feeds the history. */
  function Aborting(record: Record, run: Run, sent: nat): Record {
    record.(run := Some(run), action := Some(AbortAction), stage := AbortStage,
            history := if record.history.abortFrom.None? then record.history.(abortFrom := Some(sent)) else record.history)
  }

  /** What `abandonReopen` demands. */
  predicate MayAbandon(record: Record) {
    && record.action == Some(CheckpointAction) && record.stage.ReopenStage? && record.recovery.PublishedNeedsReopen?
    && record.pending.Some? && record.pending.value.request.OpenRun? && record.pending.value.operationId.None?
    && record.accepted.Some? && RunIdOf(record) == Some(record.accepted.value.run)
    && !record.possible && record.proof.Some?
    && record.proof.value == Proof(record.pending.value.key, record.pending.value.request, record.proof.value.status, record.attempts)
    && (record.proof.value.status == 401 || record.proof.value.status == 403)
  }

  function Abandon(record: Record): Record
    requires MayAbandon(record)
  {
    record.(abandoned := Some(Abandoned(record.pending.value, record.proof.value)),
            pending := None, action := None, stage := DoneStage, recovery := ReopenAbandoned)
  }
}
