/**
 What the journal of the Python client rests on: the caller asked for it or the server said it.
 `told` is everything the server ever answered, and every step keeps the journal within it.
 */
module PythonGrounds {
  import opened Prelude
  import opened Exchange
  import opened Protocol
  import opened PythonJournal
  import opened PythonInvariant

  // ---------------------------------------------------------------- what the caller asked for

  predicate InPublication(phase: Phase) { phase in {SubmissionCreate, Uploading, Sealing, Finalizing} }

  /** What the caller asked for and the server finalized fits the phase, in which a publication has or has not begun. */
  predicate RunPurpose(record: Record, run: RunId) {
    && (record.phase in {Hydrating, Ready} ==> run !in record.history.captureOf)
    && (record.phase in {SubmissionCreate, Uploading, Sealing} ==> record.mode.ReadWrite? && run in record.history.captureOf)
    && (record.phase.Finalizing? ==> (run in record.history.captureOf <==> record.mode.ReadWrite?))
    && (record.phase in {Hydrating, Ready} || InPublication(record.phase) ==> run !in record.history.finalized)
    && (InPublication(record.phase) ==> run in record.history.asked && record.history.asked[run] == record.checkpoint)
    && (record.phase.PublishedNeedsReopen? ==> Checkpointed(record.history, run))
  }

  /** From a held run another one is opened only after its checkpoint, and a writable run is finalized with a submission. */
  predicate Purposeful(record: Record, request: Request, run: Option<RunId>) {
    && (request.OpenRun? && run.Some? ==> Checkpointed(record.history, run.value))
    && (request.FinalizeRun? ==> (request.selected.Some? <==> record.mode.ReadWrite?))
  }

  ghost predicate Purpose(record: Record, sends: seq<Sent>) {
    && (forall run :: run in record.history.finalized ==> run.openedBy in record.history.settled)
    && (forall run :: run in record.history.captureOf ==> run.openedBy in record.history.settled)
    && (record.run.Some? ==> RunPurpose(record, record.run.value.id))
    && (forall i :: 0 <= i < |sends| ==> Purposeful(record, sends[i].request, sends[i].run))
    && (record.pending.Some? ==> Purposeful(record, record.pending.value.request, RunIdOf(record)))
  }

  // ---------------------------------------------------------------- what the server said

  /** The run as the server showed it, but for a state the client derives from its own finalization. */
  ghost predicate RunTold(told: set<Value>, run: Run) {
    exists v :: v in told && v.RunView? && v.run.(state := run.state) == run
  }

  ghost predicate OperationTold(told: set<Value>, operation: Operation) {
    exists v :: v in told && v.OperationDone? && v.done == operation
  }

  ghost predicate SubmissionTold(told: set<Value>, id: SubmissionId) {
    exists v :: v in told && ((v.SubmissionView? && v.submission.id == id) || (v.OperationDone? && id == NamedByOperation(v.done.id)))
  }

  ghost predicate WorkspaceTold(told: set<Value>, workspace: nat) {
    exists v :: v in told && ((v.WorkspaceCreated? && v.workspace == workspace) || (v.OperationDone? && v.created == workspace))
  }

  ghost predicate VersionTold(told: set<Value>, run: RunId, version: nat) {
    exists v :: v in told && v.RunView? && v.run.id == run && v.run.version == version
  }

  ghost predicate LeaseTold(told: set<Value>, run: RunId, version: nat) {
    exists v :: v in told && v.RunView? && v.run.id == run && v.run.leaseVersion == version
  }

  /** A request names versions, submissions and a workspace that the server or the caller named first. */
  ghost predicate RequestTold(told: set<Value>, given: Option<nat>, request: Request) {
    match request
    case CreateWorkspace => true
    case OpenRun(workspace) => workspace == given || (workspace.Some? && WorkspaceTold(told, workspace.value))
    case CreateSubmission(_) => true
    case UploadFile(_, submission, _, _, _) => SubmissionTold(told, submission)
    case SealSubmission(_, submission, _, receipts) => SubmissionTold(told, submission) && ReceiptsTold(told, receipts)
    case FinalizeRun(run, version, selected) => VersionTold(told, run, version) && (selected.Some? ==> SubmissionTold(told, selected.value))
    case RenewLease(run, version) => LeaseTold(told, run, version)
    case AbortRun(run, version) => VersionTold(told, run, version)
  }

  ghost predicate ReceiptsTold(told: set<Value>, receipts: seq<Receipt>) {
    forall receipt :: receipt in receipts ==> ReceiptView(receipt) in told
  }

  /** The journal invents nothing; `given` is the workspace the caller named. */
  ghost predicate Truthful(record: Record, told: set<Value>, given: Option<nat>) {
    && (record.workspace == given || (record.workspace.Some? && WorkspaceTold(told, record.workspace.value)))
    && (record.run.Some? ==> RunTold(told, record.run.value))
    && (record.submission.Some? ==> SubmissionTold(told, record.submission.value.id))
    && ReceiptsTold(told, record.receipts)
    && (record.lastOperation.Some? ==> OperationTold(told, record.lastOperation.value))
    && (record.pending.Some? ==> RequestTold(told, given, record.pending.value.request))
  }

  ghost predicate AllTold(sends: seq<Sent>, told: set<Value>, given: Option<nat>) {
    forall i :: 0 <= i < |sends| ==> RequestTold(told, given, sends[i].request)
  }

  /** What a writable run is finalized with was answered as sealed with its capture. */
  predicate SealHeld(record: Record) {
    record.phase.Finalizing? && record.mode.ReadWrite? && record.capture.Some? && record.submission.Some? ==>
      record.submission.value.isSealed && record.submission.value.digest == Some(record.capture.value.manifest)
  }

  ghost predicate Grounded(record: Record, sends: seq<Sent>, told: set<Value>, given: Option<nat>) {
    SealHeld(record) && Purpose(record, sends) && Truthful(record, told, given) && AllTold(sends, told, given)
  }

  /** A request names what the journal holds. */
  predicate Current(record: Record, request: Request) {
    match request
    case OpenRun(workspace) => workspace == record.workspace
    case UploadFile(_, submission, _, _, _) => record.submission.Some? && submission == record.submission.value.id
    case SealSubmission(_, submission, _, receipts) =>
      record.submission.Some? && submission == record.submission.value.id && receipts == record.receipts
    case FinalizeRun(run, version, selected) =>
      && record.run.Some? && run == record.run.value.id && version == record.run.value.version
      && (selected.Some? ==> record.submission.Some? && selected.value == record.submission.value.id)
    case RenewLease(run, version) => record.run.Some? && run == record.run.value.id && version == record.run.value.leaseVersion
    case AbortRun(run, version) => record.run.Some? && run == record.run.value.id && version == record.run.value.version
    case _ => true
  }

  // ---------------------------------------------------------------- the server says more

  lemma RequestStillTold(told: set<Value>, more: set<Value>, given: Option<nat>, request: Request)
    requires RequestTold(told, given, request) && told <= more
    ensures RequestTold(more, given, request)
  {
  }

  lemma StillTruthful(record: Record, told: set<Value>, more: set<Value>, given: Option<nat>)
    requires Truthful(record, told, given) && told <= more
    ensures Truthful(record, more, given)
  {
  }

  lemma StillGrounded(record: Record, sends: seq<Sent>, told: set<Value>, more: set<Value>, given: Option<nat>)
    requires Grounded(record, sends, told, given) && told <= more
    ensures Grounded(record, sends, more, given)
  {
    StillTruthful(record, told, more, given);
    forall i | 0 <= i < |sends| ensures RequestTold(more, given, sends[i].request) {
      RequestStillTold(told, more, given, sends[i].request);
    }
  }

  lemma CurrentTold(record: Record, told: set<Value>, given: Option<nat>, request: Request)
    requires Truthful(record, told, given) && Current(record, request)
    ensures RequestTold(told, given, request)
  {
  }

  // ---------------------------------------------------------------- every step keeps it

  /** Purpose reads the run, the phase, the pending request and the history alone. */
  lemma PurposeOf(record: Record, after: Record, sends: seq<Sent>)
    requires Purpose(record, sends)
    requires after.mode == record.mode && RunIdOf(after) == RunIdOf(record)
    requires
      || (after.phase == record.phase && after.checkpoint == record.checkpoint)
      || (record.phase.Uploading? && after.phase.Sealing? && after.checkpoint == record.checkpoint)
      || (record.phase.Hydrating? && after.phase.Ready?)
      || Terminal(after.phase)
    requires after.history.captureOf == record.history.captureOf && after.history.asked == record.history.asked
    requires after.history.finalized == record.history.finalized && record.history.settled <= after.history.settled
    requires after.pending.Some? ==> Purposeful(record, after.pending.value.request, RunIdOf(record))
    ensures Purpose(after, sends)
  {
    forall i | 0 <= i < |sends| ensures Purposeful(after, sends[i].request, sends[i].run) {
      assert Purposeful(record, sends[i].request, sends[i].run);
    }
  }

  lemma PrepareGrounded(record: Record, sends: seq<Sent>, told: set<Value>, given: Option<nat>, key: Key, request: Request)
    requires Grounded(record, sends, told, given) && Current(record, request) && Purposeful(record, request, RunIdOf(record))
    ensures Grounded(Prepare(record, key, request, |sends|), sends, told, given)
  {
    CurrentTold(record, told, given, request);
    PurposeOf(record, Prepare(record, key, request, |sends|), sends);
  }

  /** The status of the pending command, another view of the run that was just read, and the ends of commands. */
  lemma KeptGrounded(record: Record, after: Record, sends: seq<Sent>, told: set<Value>, given: Option<nat>)
    requires Grounded(record, sends, told, given)
    requires after.mode == record.mode && RunIdOf(after) == RunIdOf(record)
    requires
      || (after.phase == record.phase && after.checkpoint == record.checkpoint)
      || (record.phase.Uploading? && after.phase.Sealing? && after.checkpoint == record.checkpoint)
      || (record.phase.Hydrating? && after.phase.Ready?)
      || Terminal(after.phase)
    requires after.history.captureOf == record.history.captureOf && after.history.asked == record.history.asked
    requires after.history.finalized == record.history.finalized && record.history.settled <= after.history.settled
    requires after.pending.Some? ==> record.pending.Some? && after.pending.value.request == record.pending.value.request
    requires after.workspace == record.workspace && after.submission == record.submission && after.receipts == record.receipts
    requires after.lastOperation == record.lastOperation && (after.capture == record.capture || after.capture.None?)
    requires after.run == record.run || (after.run.Some? && RunView(after.run.value) in told)
    ensures Grounded(after, sends, told, given)
  {
    PurposeOf(record, after, sends);
  }

  lemma TransmitGrounded(record: Record, sends: seq<Sent>, told: set<Value>, given: Option<nat>, sent: Sent)
    requires Grounded(record, sends, told, given) && record.pending.Some?
    requires sent.request == record.pending.value.request && sent.run == RunIdOf(record)
    ensures Grounded(record, sends + [sent], told, given)
  {
  }

  lemma FailGrounded(record: Record, sends: seq<Sent>, told: set<Value>, given: Option<nat>, uncertain: bool, failure: Failure, lookup: Lookup)
    requires Grounded(record, sends, told, given) && record.pending.Some? && LooksUp(record, lookup)
    requires lookup.Remote? ==> RunView(lookup.run) in told
    ensures Grounded(Fail(record, uncertain, failure, lookup), sends, told, given)
  {
    FailShape(record, uncertain, failure, lookup);
    FailReads(record, uncertain, failure, lookup);
    KeptGrounded(record, Fail(record, uncertain, failure, lookup), sends, told, given);
  }

  /** Only the run is read again, and only outcomes of commands are noted. */
  predicate Reads(record: Record, after: Record, lookup: Lookup) {
    && (after.run == record.run || (lookup.Remote? && after.run == Some(lookup.run)))
    && after.history == record.history.(settled := after.history.settled, blind := after.history.blind)
    && record.history.settled <= after.history.settled
  }

  lemma KnownReads(record: Record, uncertain: bool, failure: Failure, lookup: Lookup)
    requires record.pending.Some?
    ensures var known := RefreshedRun(WithOperation(record, failure.operationId), uncertain, failure, lookup);
      known.pending.Some? && Reads(record, known, lookup)
  {
  }

  lemma EndReads(record: Record, known: Record, lookup: Lookup, error: Failure, refused: bool)
    requires known.pending.Some? && Reads(record, known, lookup)
    ensures Reads(record, WithPhase(known, OutcomeUnknown), lookup) && Reads(record, Reopen(known, error), lookup)
    ensures Reads(record, GiveUp(Reopen(known, error), error, refused), lookup)
  {
  }

  lemma FailReads(record: Record, uncertain: bool, failure: Failure, lookup: Lookup)
    requires record.pending.Some?
    ensures Reads(record, Fail(record, uncertain, failure, lookup), lookup)
  {
    if !failure.unknown {
      var known := RefreshedRun(WithOperation(record, failure.operationId), uncertain, failure, lookup);
      KnownReads(record, uncertain, failure, lookup);
      var error := EffectiveFailure(record, uncertain, failure, lookup);
      EndReads(record, known, lookup, error, CleanRejection(record.pending.value.request, failure));
    }
  }

  lemma AcceptPurpose(record: Record, sends: seq<Sent>, next: Key, value: Value)
    requires Coherent(record) && KeysKnown(record, sends, next) && Purpose(record, sends) && record.pending.Some?
    requires Answers(record.pending.value.request, record.pending.value.key, value)
    ensures Purpose(Accept(record, value), sends)
  {
    var after := Accept(record, value);
    AcceptShape(record, value);
    AcceptHistory(record, value);
    forall i | 0 <= i < |sends| ensures Purposeful(after, sends[i].request, sends[i].run) {
      assert Purposeful(record, sends[i].request, sends[i].run);
    }
  }

  /** Accepting writes what the value says, and nothing else but the phase. */
  lemma AcceptReads(record: Record, value: Value)
    requires record.pending.Some? && Answers(record.pending.value.request, record.pending.value.key, value)
    ensures var p, after := record.pending.value, Accept(record, value);
      && after.pending.None?
      && (!p.request.CreateWorkspace? ==> after.workspace == record.workspace)
      && (!p.request.CreateSubmission? && !p.request.SealSubmission? ==> after.submission == record.submission)
      && (!p.request.UploadFile? ==> after.receipts == record.receipts)
      && (!p.request.FinalizeRun? ==> after.lastOperation == record.lastOperation)
      && (after.run.Some? && record.run.Some? && p.request.FinalizeRun? ==> after.run.value.(state := record.run.value.state) == record.run.value)
      && (!p.request.FinalizeRun? ==> after.run == record.run || (value.RunView? && after.run == Some(value.run)))
      && (p.request.FinalizeRun? ==> after.run.Some? == record.run.Some?)
  {
  }

  lemma AcceptTruthful(record: Record, told: set<Value>, given: Option<nat>, value: Value)
    requires Truthful(record, told, given) && record.pending.Some? && value in told
    requires Answers(record.pending.value.request, record.pending.value.key, value)
    ensures Truthful(Accept(record, value), told, given)
  {
    AcceptReads(record, value);
    AcceptWrites(record, told, value);
  }

  lemma AcceptWrites(record: Record, told: set<Value>, value: Value)
    requires record.pending.Some? && value in told
    requires Answers(record.pending.value.request, record.pending.value.key, value)
    ensures var request, after := record.pending.value.request, Accept(record, value);
      match request
      case CreateWorkspace => after.workspace.Some? && WorkspaceTold(told, after.workspace.value)
      case CreateSubmission(_) | SealSubmission(_, _, _, _) => after.submission.Some? && SubmissionTold(told, after.submission.value.id)
      case UploadFile(_, _, _, _, _) => after.receipts == record.receipts + [value.receipt] && ReceiptView(value.receipt) in told
      case FinalizeRun(_, _, _) => after.lastOperation.Some? && OperationTold(told, after.lastOperation.value)
      case _ => true
  {
  }

  lemma AcceptSealHeld(record: Record, value: Value)
    requires Coherent(record) && SealHeld(record) && record.pending.Some?
    requires Answers(record.pending.value.request, record.pending.value.key, value) && !SealMismatch(record, value)
    ensures SealHeld(Accept(record, value))
  {
  }

  lemma SettleGrounded(record: Record, sends: seq<Sent>, next: Key, told: set<Value>, given: Option<nat>, uncertain: bool, reply: Reply, lookup: Lookup)
    requires Coherent(record) && KeysKnown(record, sends, next)
    requires Grounded(record, sends, told, given) && record.pending.Some? && LooksUp(record, lookup)
    requires lookup.Remote? ==> RunView(lookup.run) in told
    requires reply.Answered? ==> reply.value in told && Answers(record.pending.value.request, record.pending.value.key, reply.value)
    ensures Grounded(Settle(record, uncertain, reply, lookup), sends, told, given)
  {
    match reply
    case Answered(value) =>
      if SealMismatch(record, value) {
        FailGrounded(record, sends, told, given, uncertain, ReceiptMismatchFailure, lookup);
      } else {
        AcceptSealHeld(record, value);
        AcceptPurpose(record, sends, next, value);
        AcceptTruthful(record, told, given, value);
      }
    case Threw(failure) => FailGrounded(record, sends, told, given, uncertain, failure, lookup);
  }

  lemma StartPublicationGrounded(record: Record, sends: seq<Sent>, told: set<Value>, given: Option<nat>, checkpoint: bool, capture: Capture)
    requires Coherent(record) && (record.run.Some? ==> record.run.value.id.openedBy in record.history.settled)
    requires Grounded(record, sends, told, given) && record.pending.None? && record.phase.Ready?
    ensures Grounded(StartPublication(record, checkpoint, capture), sends, told, given)
  {
    var after := StartPublication(record, checkpoint, capture);
    forall i | 0 <= i < |sends| ensures Purposeful(after, sends[i].request, sends[i].run) {
      assert Purposeful(record, sends[i].request, sends[i].run);
    }
  }

  // ---------------------------------------------------------------- where a publication is

  /**
   Where the publication of a run can be, given what the caller asked for: before its finalization the
   run is held, after it a checkpoint goes on to another run and nothing else does.
   */
  predicate Underway(record: Record, run: RunId, checkpoint: bool) {
    && record.abandoned.None? && run.openedBy in record.history.settled
    && (record.pending.Some? ==> !record.pending.value.request.AbortRun?)
    && (InPublication(record.phase) || (record.lastOperation.Some? && run in record.history.finalized))
    && match record.phase
       case SubmissionCreate | Uploading | Sealing | Finalizing => RunIdOf(record) == Some(run) && record.checkpoint == checkpoint
       case PublishedNeedsReopen => checkpoint && RunIdOf(record) == Some(run)
       case Hydrating => checkpoint && record.run.Some? && RunIdOf(record) != Some(run)
       case Ready => checkpoint && record.run.Some? && RunIdOf(record) != Some(run) && !record.checkpoint
       case Finalized => !checkpoint && RunIdOf(record) == Some(run) && record.pending.None? && record.run.value.state.FinalizedRun?
       case _ => false
  }

  ghost predicate StaysUnderway(before: Record, after: Record) {
    forall run, checkpoint :: Underway(before, run, checkpoint) ==> Underway(after, run, checkpoint)
  }

  /** Whatever was sent meanwhile carried this request. */
  ghost predicate Carries(before: seq<Sent>, after: seq<Sent>, request: Request) {
    before <= after && forall i :: |before| <= i < |after| ==> after[i].request == request
  }

  ghost predicate NoOpeningFrom(sends: seq<Sent>, from: nat) {
    forall i :: from <= i < |sends| ==> !sends[i].request.OpenRun?
  }

  lemma AcceptUnderway(before: Record, value: Value, run: RunId, checkpoint: bool)
    requires Coherent(before) && before.pending.Some? && before.pending.value.key !in before.history.settled
    requires Answers(before.pending.value.request, before.pending.value.key, value)
    requires Underway(before, run, checkpoint)
    ensures Underway(Accept(before, value), run, checkpoint)
  {
    var p := before.pending.value;
    if p.request.OpenRun? {
      assert before.phase.PublishedNeedsReopen? && RunId(p.key) != run;
    } else if p.request.FinalizeRun? {
      assert before.phase.Finalizing? && p.request.run == run;
    } else {
      AcceptGoesOn(before, value);
    }
  }

  /** The other commands of a publication leave the run and what was asked for as they are. */
  lemma AcceptGoesOn(before: Record, value: Value)
    requires Coherent(before) && before.pending.Some? && Answers(before.pending.value.request, before.pending.value.key, value)
    requires before.pending.value.request.CreateSubmission? || before.pending.value.request.UploadFile?
      || before.pending.value.request.SealSubmission? || before.pending.value.request.RenewLease?
    ensures var after := Accept(before, value);
      && after.pending.None? && RunIdOf(after) == RunIdOf(before) && after.checkpoint == before.checkpoint
      && after.abandoned == before.abandoned && after.lastOperation == before.lastOperation
      && after.history.finalized == before.history.finalized && before.history.settled <= after.history.settled
      && (after.phase == before.phase || (InPublication(before.phase) && InPublication(after.phase)))
  {
  }

  /** A renewed lease and an aborted run are held as answered. */
  lemma AcceptView(before: Record, value: Value)
    requires before.pending.Some? && Answers(before.pending.value.request, before.pending.value.key, value)
    requires before.pending.value.request.RenewLease? || before.pending.value.request.AbortRun?
    ensures Accept(before, value).run == Some(value.run)
  {
  }

  lemma BegunUnderway(before: Record, operation: Option<OperationId>, run: RunId, checkpoint: bool)
    requires before.pending.Some?
    ensures Underway(WithOperation(Begin(before), operation), run, checkpoint) == Underway(before, run, checkpoint)
  {
  }
}
