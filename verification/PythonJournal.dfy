/**
 The durable command journal of the Python client (sdk/python/contextvault/local.py):
 its fields, and one function for each step that rewrites them.
 */
module PythonJournal {
  import opened Prelude
  import opened Exchange
  import opened Protocol

  /** A request stands for its own fingerprint. */
  datatype Attempt = Attempt(key: Key, fingerprint: Request, dispatched: bool)
  datatype Rejection = Rejection(key: Key, fingerprint: Request, httpStatus: int)
  datatype Abandonment = Abandonment(command: Pending, proof: Rejection, acceptedOperation: OperationId, run: RunId)
  datatype Cleanup = CleanupPending | CleanupRunning | CleanupFailed | CleanupComplete

  datatype Phase =
    | Creating | Opening | Hydrating | Ready
    | SubmissionCreate | Uploading | Sealing | Finalizing | PublishedNeedsReopen
    | Finalized | Aborted | Conflicted | Failed | Expired | Abandoned

  /** `mode` is the mode every run of the session is opened with; the server's run views repeat it. */
  datatype Record = Record(
    workspace: Option<nat>, mode: Mode, run: Option<Run>, pending: Option<Pending>,
    phase: Phase, capture: Option<Capture>, receipts: seq<Receipt>, uploadIndex: nat,
    submission: Option<Submission>, checkpoint: bool, lastOperation: Option<Operation>,
    attempt: Option<Attempt>, rejection: Option<Rejection>, rejectedCommand: Option<Pending>,
    failedCommand: Option<Pending>, abandoned: Option<Abandonment>, cleanup: Cleanup, history: History)

  /** What a call into the transport gave back. An exception carries its class through `status`, as error_from_body does. */
  datatype Failure = Failure(
    status: int, code: Code, httpStatus: int, operationId: Option<OperationId>, outcomeKnown: bool, unknown: bool)
  datatype Value =
    | WorkspaceCreated(workspace: nat)
    | OperationStarted(operation: OperationId)
    | OperationDone(done: Operation, created: nat)
    | RunView(run: Run)
    | SubmissionView(submission: Submission)
    | ReceiptView(receipt: Receipt)
  datatype Reply = Answered(value: Value) | Threw(failure: Failure)

  /** The lookup of the run that follows an INVALID_TRANSITION response. */
  datatype Lookup = LookupFailed | Remote(run: Run)

  datatype Exit = Done | Raised | Crashed

  predicate Terminal(phase: Phase) {
    phase in {Finalized, Aborted, Conflicted, Failed, Expired, Abandoned}
  }

  function RunIdOf(record: Record): Option<RunId> {
    if record.run.None? then None else Some(record.run.value.id)
  }

  // ---------------------------------------------------------------- evidence about the pending command

  /** `_definitely_rejected`. */
  predicate DefinitelyRejected(record: Record) {
    && record.pending.Some?
    && record.pending.value.phase.Prepared?
    && record.pending.value.operationId.None?
    && record.rejection.Some?
    && record.rejection.value.key == record.pending.value.key
    && record.rejection.value.fingerprint == record.pending.value.request
    && ClientError(record.rejection.value.httpStatus)
  }

  /** The journal shows that the pending command has never left this client. */
  predicate FirstDispatch(record: Record) {
    && record.pending.Some?
    && record.pending.value.phase.Prepared?
    && record.attempt.Some?
    && !record.attempt.value.dispatched
    && record.attempt.value.key == record.pending.value.key
    && record.attempt.value.fingerprint == record.pending.value.request
  }

  predicate Uncertain(record: Record) {
    !(FirstDispatch(record) || DefinitelyRejected(record))
  }

  // ---------------------------------------------------------------- preparing a command

  predicate MayPrepare(record: Record, request: Request) {
    && record.abandoned.None?
    && (record.pending.None? || (request.AbortRun? && DefinitelyRejected(record)))
  }

  /** `_prepare`; `sent` counts earlier transmissions and only feeds the history. */
  function Prepare(record: Record, key: Key, request: Request, sent: nat): Record {
    record.(
      rejectedCommand := if record.pending.Some? then record.pending else record.rejectedCommand,
      pending := Some(Pending(key, request, Prepared, None)),
      attempt := Some(Attempt(key, request, false)),
      rejection := None,
      history := if request.AbortRun? && record.history.abortFrom.None?
                 then record.history.(abortFrom := Some(sent)) else record.history)
  }

  // ---------------------------------------------------------------- dispatching it

  /** The record saved before the request leaves: the earlier rejection proof is gone. */
  function Begin(record: Record): Record
    requires record.pending.Some?
  {
    var p := record.pending.value;
    record.(
      pending := Some(p.(phase := Dispatched)),
      rejection := None,
      attempt := Some(Attempt(p.key, p.request, true)))
  }

  function WithOperation(record: Record, operation: Option<OperationId>): Record
    requires record.pending.Some?
  {
    if operation.None? then record
    else record.(pending := Some(record.pending.value.(operationId := operation)))
  }

  function WithPhase(record: Record, phase: CommandPhase): Record
    requires record.pending.Some?
  {
    record.(pending := Some(record.pending.value.(phase := phase)))
  }

  predicate SealMismatch(record: Record, value: Value)
    requires record.pending.Some? && Answers(record.pending.value.request, record.pending.value.key, value)
  {
    && record.pending.value.request.SealSubmission?
    && (record.capture.None? || value.submission.digest != Some(record.capture.value.manifest) || !value.submission.isSealed)
  }

  /**
   The values `_accept` can read for a command, once any operation has been waited for. An
   operation named by an earlier error response stands in for a submission, of which
   `_accept` reads only the identity; for every other kind it lacks the fields read.
   */
  predicate Answers(request: Request, key: Key, value: Value) {
    match request
    case CreateWorkspace => value.WorkspaceCreated? || value.OperationDone?
    case OpenRun(_) => value.RunView? && value.run.id == RunId(key)
    case CreateSubmission(_) => value.OperationDone? || (value.SubmissionView? && value.submission.id == CreatedBy(key))
    case UploadFile(_, _, _, _, entry) => value.ReceiptView? && value.receipt.path == entry.path
    case SealSubmission(_, submission, _, _) => value.SubmissionView? && value.submission.id == submission
    case FinalizeRun(_, _, _) => value.OperationDone?
    case RenewLease(run, _) => value.RunView? && value.run.id == run
    case AbortRun(run, _) => value.RunView? && value.run.id == run
  }

  /** Creation and finalization can also answer with an operation that is still to be waited for. */
  predicate StartsOperation(request: Request, value: Value) {
    (request.CreateWorkspace? || request.FinalizeRun?) && value.OperationStarted?
  }

  /** `_accept`, followed by clearing the pending command in the same save. */
  function Accept(record: Record, value: Value): Record
    requires record.pending.Some? && Answers(record.pending.value.request, record.pending.value.key, value)
  {
    var p := record.pending.value;
    var cleared := record.(pending := None, history := record.history.(settled := record.history.settled + {p.key}));
    match p.request
    case CreateWorkspace =>
      cleared.(workspace := Some(if value.WorkspaceCreated? then value.workspace else value.created), phase := Opening)
    case OpenRun(_) =>
      cleared.(run := Some(value.run), phase := Hydrating)
    case CreateSubmission(run) =>
      var submission := if value.SubmissionView? then value.submission
                        else Submission(NamedByOperation(value.done.id), None, false);
      cleared.(submission := Some(submission), phase := Uploading,
               history := cleared.history.(submissionOf := cleared.history.submissionOf[run := submission.id],
                                           receiptsOf := cleared.history.receiptsOf[run := []]))
    case UploadFile(run, _, _, _, _) =>
      var receipts := record.receipts + [value.receipt];
      cleared.(receipts := receipts, uploadIndex := record.uploadIndex + 1,
               history := cleared.history.(receiptsOf := cleared.history.receiptsOf[run := receipts]))
    case SealSubmission(_, _, _, _) =>
      cleared.(submission := Some(value.submission), phase := Finalizing)
    case FinalizeRun(run, _, _) =>
      cleared.(lastOperation := Some(value.done),
               phase := if record.checkpoint then PublishedNeedsReopen else Finalized,
               run := if record.run.Some? then Some(record.run.value.(state := FinalizedRun)) else None,
               history := cleared.history.(finalized := cleared.history.finalized + {run}))
    case RenewLease(_, _) =>
      cleared.(run := Some(value.run))
    case AbortRun(_, _) =>
      cleared.(run := Some(value.run), phase := Aborted)
  }

  predicate NeedsLookup(record: Record, uncertain: bool, failure: Failure) {
    failure.code.InvalidTransition? && record.run.Some? && !uncertain
  }

  /** The exception in force after the run lookup: an expired run replaces it by a local ExpiredError. */
  function EffectiveFailure(record: Record, uncertain: bool, failure: Failure, lookup: Lookup): Failure {
    if NeedsLookup(record, uncertain, failure) && lookup.Remote? && lookup.run.state.ExpiredRun?
    then Failure(410, RunExpired, 0, None, false, false)
    else failure
  }

  function RefreshedRun(record: Record, uncertain: bool, failure: Failure, lookup: Lookup): Record {
    if NeedsLookup(record, uncertain, failure) && lookup.Remote? && lookup.run.state.ExpiredRun?
    then record.(run := Some(lookup.run)) else record
  }

  function FailurePhase(status: int): Phase {
    if status == 410 then Expired else if status == 409 then Conflicted else Failed
  }

  /** The command goes back to prepared; a complete 4xx response leaves its proof. */
  function Reopen(record: Record, error: Failure): Record
    requires record.pending.Some?
  {
    var p := record.pending.value;
    if ClientError(error.httpStatus)
    then WithPhase(record, Prepared).(rejection := Some(Rejection(p.key, p.request, error.httpStatus)))
    else WithPhase(record, Prepared)
  }

  /** A complete 4xx response that names no operation and leaves none open proves that its transmission was refused. */
  predicate CleanRejection(request: Request, failure: Failure) {
    && !failure.unknown && ClientError(failure.httpStatus) && failure.operationId.None?
    && !LeavesOpen(request, failure.httpStatus, failure.code)
  }

  /**
   The command is over, with the phase its exception class stands for. `refused` says that the
   response was a clean rejection; it only feeds the history.
   */
  function GiveUp(record: Record, error: Failure, refused: bool): Record
    requires record.pending.Some?
  {
    var key := record.pending.value.key;
    record.(
      phase := FailurePhase(error.status), failedCommand := record.pending, pending := None,
      history := if error.outcomeKnown then record.history.(settled := record.history.settled + {key})
                 else if refused then record.history
                 else record.history.(blind := record.history.blind + {key}))
  }

  /** The two exception handlers of `_dispatch`; `record` is the journal as begun. */
  function Fail(record: Record, uncertain: bool, failure: Failure, lookup: Lookup): Record
    requires record.pending.Some?
  {
    if failure.unknown then WithOperation(WithPhase(record, OutcomeUnknown), failure.operationId)
    else
      var known := RefreshedRun(WithOperation(record, failure.operationId), uncertain, failure, lookup);
      var error := EffectiveFailure(record, uncertain, failure, lookup);
      if (uncertain || known.pending.value.operationId.Some? || error.status >= 500) && !error.outcomeKnown then
        WithPhase(known, OutcomeUnknown)
      else if error.outcomeKnown || (!record.pending.value.request.OpenRun? && (error.status == 409 || error.status == 410)) then
        GiveUp(Reopen(known, error), error, CleanRejection(record.pending.value.request, failure))
      else Reopen(known, error)
  }

  const ReceiptMismatchFailure := Failure(422, ReceiptMismatch, 0, None, false, false)

  /** The journal after one reply; a seal that answers with other content counts as a local failure. */
  function Settle(record: Record, uncertain: bool, reply: Reply, lookup: Lookup): Record
    requires record.pending.Some?
    requires reply.Answered? ==> Answers(record.pending.value.request, record.pending.value.key, reply.value)
  {
    match reply
    case Answered(value) =>
      if SealMismatch(record, value) then Fail(record, uncertain, ReceiptMismatchFailure, lookup)
      else Accept(record, value)
    case Threw(failure) => Fail(record, uncertain, failure, lookup)
  }

  // ---------------------------------------------------------------- the other journal writes

  /** `_finalize` from a ready workspace; `capture` is the snapshot just taken of a writable one. */
  function StartPublication(record: Record, checkpoint: bool, capture: Capture): Record
    requires record.run.Some?
  {
    var run := record.run.value.id;
    var asked := record.history.(asked := record.history.asked[run := checkpoint]);
    if record.mode.ReadWrite? then
      record.(checkpoint := checkpoint, capture := Some(capture), phase := SubmissionCreate,
              receipts := [], uploadIndex := 0, submission := None,
              history := asked.(captureOf := asked.captureOf[run := capture]))
    else record.(checkpoint := checkpoint, phase := Finalizing, history := asked)
  }

  function Hydrated(record: Record): Record {
    record.(phase := Ready, checkpoint := false)
  }

  function SetRun(record: Record, run: Run): Record {
    record.(run := Some(run))
  }

  /** `_retire_rejected_reopen`. */
  function Retire(record: Record, remote: Run, operation: OperationId): Record
    requires record.pending.Some? && record.rejection.Some?
  {
    record.(
      abandoned := Some(Abandonment(record.pending.value, record.rejection.value, operation, remote.id)),
      pending := None, rejection := None, attempt := None,
      phase := Abandoned, checkpoint := false, run := Some(remote))
  }
}
