/**
 What the record of the PHP client rests on: the caller asked for it or the server said it.
 `told` is everything the server ever answered, and every step keeps the record within it.
 */
module PhpGrounds {
  import opened Exchange
  import opened PhpInvariant
  import opened PhpJournal
  import opened Prelude
  import opened Protocol

  /** What the server answered to a request. */
  datatype Answer = Answer(request: Request, value: Value)

  // ---------------------------------------------------------------- what the server said

  ghost predicate RunTold(told: set<Answer>, run: Run) { exists a :: a in told && a.value == RunView(run) }

  ghost predicate WorkspaceTold(told: set<Answer>, workspace: nat) { exists a :: a in told && a.value == WorkspaceNamed(workspace) }

  ghost predicate SubmissionTold(told: set<Answer>, submission: SubmissionId) { exists a :: a in told && a.value == SubmissionView(submission) }

  ghost predicate ReceiptsTold(told: set<Answer>, receipts: seq<Receipt>) {
    forall receipt :: receipt in receipts ==> exists a :: a in told && a.value == ReceiptView(receipt)
  }

  ghost predicate VersionTold(told: set<Answer>, run: RunId, version: nat) {
    exists a :: a in told && a.value.RunView? && a.value.run.id == run && a.value.run.version == version
  }

  ghost predicate LeaseTold(told: set<Answer>, run: RunId, version: nat) {
    exists a :: a in told && a.value.RunView? && a.value.run.id == run && a.value.run.leaseVersion == version
  }

  /** The server answered the finalization of the run with `runState` finalized. */
  ghost predicate FinalizedTold(told: set<Answer>, run: RunId) { exists a :: a in told && Finalizes(a, run) }

  predicate Finalizes(a: Answer, run: RunId) {
    a.request.FinalizeRun? && a.request.run == run && a.value.Finalization? && a.value.finalized
  }

  ghost predicate CheckpointTold(told: set<Answer>, checkpoint: Checkpoint) {
    exists a :: a in told && Finalizes(a, checkpoint.run) && a.value.operation == checkpoint.operation
  }

  /** A request names versions, submissions and a workspace that the server or the caller named first. */
  ghost predicate RequestTold(told: set<Answer>, given: Option<nat>, request: Request) {
    match request
    case CreateWorkspace => true
    case OpenRun(workspace) => workspace == given || (workspace.Some? && WorkspaceTold(told, workspace.value))
    case CreateSubmission(_) => true
    case UploadFile(_, submission, _, _, _) => SubmissionTold(told, submission)
    case SealSubmission(_, submission, _, receipts) => SubmissionTold(told, submission) && ReceiptsTold(told, receipts)
    case FinalizeRun(run, version, selected) => VersionTold(told, run, version) && (selected.Some? ==> SubmissionTold(told, selected.value))
    case RenewLease(run, version) => LeaseTold(told, run, version)
    case AbortRun(run, version) => VersionTold(told, run, version)
  }

  /** The record invents nothing: no run, no receipt, and above all no published checkpoint and no end of a run. */
  ghost predicate Truthful(record: Record, told: set<Answer>, given: Option<nat>) {
    && (record.workspace == given || (record.workspace.Some? && WorkspaceTold(told, record.workspace.value)))
    && (record.run.Some? ==> RunTold(told, record.run.value))
    && (record.submission.Some? ==> SubmissionTold(told, record.submission.value))
    && ReceiptsTold(told, record.receipts)
    && (record.pending.Some? ==> RequestTold(told, given, record.pending.value.request))
    && EndTold(record, told)
  }

  /** What the record says about the end of a run. */
  ghost predicate EndTold(record: Record, told: set<Answer>) {
    && (record.recovery.WasFinalized? || record.stage.ReopenStage? ==> record.run.Some? && FinalizedTold(told, record.run.value.id))
    && (record.recovery in {WasFinalized, WasAborted} ==> record.stage in {AbortStage, DoneStage})
    && (record.recovery.WasAborted? && record.stage.DoneStage? ==> record.run.Some? && record.run.value.state.AbortedRun?)
    && (record.accepted.Some? ==> CheckpointTold(told, record.accepted.value))
    && (record.stage.DoneStage? ==> record.recovery in {WasFinalized, WasAborted, KnownFailed, ReopenAbandoned})
    && ReopeningDue(record)
  }

  /** A reopening belongs to the accepted checkpoint of the held run; before its first attempt nothing speaks against it. */
  predicate ReopeningDue(record: Record) {
    record.stage.ReopenStage? ==>
      && record.recovery.PublishedNeedsReopen? && record.run.Some? && AcceptedFor(record, record.run.value.id)
      && (record.pending.None? || record.pending.value.phase.Prepared? ==> !record.possible && record.proof.None?)
  }

  // ---------------------------------------------------------------- what the caller asked for

  predicate InPublication(stage: Stage) { stage in {CaptureStage, SubmissionStage, UploadStage, SealStage, FinalizeStage} }

  /** A run that nothing was published for yet, and none was opened from. */
  predicate Early(stage: Stage) { stage in {HydrateStage, ReadyStage, HeartbeatStage, CaptureStage} }

  /** What the caller asked for fits the stage, in which a publication has or has not begun. */
  predicate RunPurpose(record: Record, run: RunId) {
    && (Early(record.stage) ==> run !in record.history.captureOf)
    && (record.stage in {SubmissionStage, UploadStage, SealStage} ==> record.mode.ReadWrite? && run in record.history.captureOf)
    && (record.stage.FinalizeStage? ==> (run in record.history.captureOf <==> record.mode.ReadWrite?))
    && (InPublication(record.stage) || record.stage.ReopenStage? ==>
         && record.action in {Some(FinalizeAction), Some(CheckpointAction)}
         && run in record.history.asked && record.history.asked[run] == (record.action == Some(CheckpointAction)))
  }

  /** A renewal and an abort have stages of their own, and a ready record holds nothing of an earlier publication. */
  predicate OwnAction(record: Record) {
    && (record.stage.ReadyStage? ==> record.action.None? && record.recovery.ReadyForWork?)
    && (record.stage in {ReadyStage, HeartbeatStage} ==> record.capture.None? && record.submission.None?)
    && (record.action == Some(HeartbeatAction) <==> record.stage.HeartbeatStage?)
    && (record.action == Some(AbortAction) <==> record.stage.AbortStage?)
  }

  /** From a held run another one is opened only after its checkpoint, and a writable run is finalized with a submission. */
  ghost predicate Purposeful(record: Record, told: set<Answer>, request: Request, run: Option<RunId>) {
    && (request.OpenRun? && run.Some? ==> run.value in record.history.asked && record.history.asked[run.value] && FinalizedTold(told, run.value))
    && (request.FinalizeRun? ==> (request.selected.Some? <==> record.mode.ReadWrite?))
  }

  ghost predicate Purpose(record: Record, sends: seq<Sent>, told: set<Answer>) {
    && (forall run :: run in record.history.captureOf ==> run.openedBy in record.history.settled)
    && (record.run.Some? ==> RunPurpose(record, record.run.value.id))
    && OwnAction(record)
    && (Early(record.stage) || InPublication(record.stage) ==>
         forall i :: 0 <= i < |sends| && sends[i].request.OpenRun? ==> sends[i].run != RunIdOf(record))
    && (forall i :: 0 <= i < |sends| ==> Purposeful(record, told, sends[i].request, sends[i].run))
    && (record.pending.Some? ==> Purposeful(record, told, record.pending.value.request, RunIdOf(record)))
  }

  ghost predicate AllTold(sends: seq<Sent>, told: set<Answer>, given: Option<nat>) {
    forall i :: 0 <= i < |sends| ==> RequestTold(told, given, sends[i].request)
  }

  ghost predicate Grounded(record: Record, sends: seq<Sent>, told: set<Answer>, given: Option<nat>) {
    Purpose(record, sends, told) && Truthful(record, told, given) && AllTold(sends, told, given)
  }

  /** A request names what the record holds. */
  predicate Current(record: Record, request: Request) {
    match request
    case OpenRun(workspace) => workspace == record.workspace
    case UploadFile(_, submission, _, _, _) => record.submission == Some(submission)
    case SealSubmission(_, submission, _, receipts) => record.submission == Some(submission) && receipts == record.receipts
    case FinalizeRun(run, version, selected) =>
      && record.run.Some? && run == record.run.value.id && version == record.run.value.version
      && (selected.Some? ==> record.submission == selected)
    case RenewLease(run, version) => record.run.Some? && run == record.run.value.id && version == record.run.value.leaseVersion
    case AbortRun(run, version) => record.run.Some? && run == record.run.value.id && version == record.run.value.version
    case _ => true
  }

  // ---------------------------------------------------------------- the server says more

  lemma RequestStillTold(told: set<Answer>, more: set<Answer>, given: Option<nat>, request: Request)
    requires RequestTold(told, given, request) && told <= more
    ensures RequestTold(more, given, request)
  {
  }

  lemma StillTruthful(record: Record, told: set<Answer>, more: set<Answer>, given: Option<nat>)
    requires Truthful(record, told, given) && told <= more
    ensures Truthful(record, more, given)
  {
  }

  lemma StillPurpose(record: Record, sends: seq<Sent>, told: set<Answer>, more: set<Answer>)
    requires Purpose(record, sends, told) && told <= more
    ensures Purpose(record, sends, more)
  {
    forall i | 0 <= i < |sends| ensures Purposeful(record, more, sends[i].request, sends[i].run) {
      assert Purposeful(record, told, sends[i].request, sends[i].run);
    }
  }

  lemma StillGrounded(record: Record, sends: seq<Sent>, told: set<Answer>, more: set<Answer>, given: Option<nat>)
    requires Grounded(record, sends, told, given) && told <= more
    ensures Grounded(record, sends, more, given)
  {
    StillTruthful(record, told, more, given);
    StillPurpose(record, sends, told, more);
    forall i | 0 <= i < |sends| ensures RequestTold(more, given, sends[i].request) {
      RequestStillTold(told, more, given, sends[i].request);
    }
  }

  // ---------------------------------------------------------------- every step keeps it

  lemma CurrentTold(record: Record, told: set<Answer>, given: Option<nat>, request: Request)
    requires Truthful(record, told, given) && Current(record, request)
    ensures RequestTold(told, given, request)
  {
  }

  /** A prepared command serves the purpose of its stage. */
  lemma CurrentPurposeful(record: Record, sends: seq<Sent>, told: set<Answer>, request: Request)
    requires Purpose(record, sends, told) && EndTold(record, told) && OwnRequest(record.stage, request)
    requires record.stage.OpenStage? ==> record.run.None?
    requires request.FinalizeRun? ==> (request.selected.Some? <==> record.mode.ReadWrite?)
    requires record.stage.ReopenStage? ==> record.action == Some(CheckpointAction)
    ensures Purposeful(record, told, request, RunIdOf(record))
  {
  }

  lemma PrepareGrounded(record: Record, sends: seq<Sent>, told: set<Answer>, given: Option<nat>, key: Key, request: Request)
    requires record.pending.None? && Grounded(record, sends, told, given) && Current(record, request) && Purposeful(record, told, request, RunIdOf(record))
    ensures Grounded(Prepare(record, key, request), sends, told, given)
  {
    CurrentTold(record, told, given, request);
    var after := Prepare(record, key, request);
    forall i | 0 <= i < |sends| ensures Purposeful(after, told, sends[i].request, sends[i].run) {
      assert Purposeful(record, told, sends[i].request, sends[i].run);
    }
  }

  /** The pending command's standing, evidence about it, and how far the uploads are. */
  lemma KeptGrounded(record: Record, after: Record, sends: seq<Sent>, told: set<Answer>, given: Option<nat>)
    requires Grounded(record, sends, told, given)
    requires after == record.(pending := after.pending, recovery := after.recovery, possible := after.possible, proof := after.proof,
                              attempts := after.attempts, uploadIndex := after.uploadIndex)
    requires after.pending.Some? ==> record.pending.Some? && after.pending.value.request == record.pending.value.request
    requires after.recovery in {WasFinalized, WasAborted} ==> after.recovery == record.recovery
    requires OwnAction(after) && ReopeningDue(after) && !record.stage.DoneStage?
    ensures Grounded(after, sends, told, given)
  {
    forall i | 0 <= i < |sends| ensures Purposeful(after, told, sends[i].request, sends[i].run) {
      assert Purposeful(record, told, sends[i].request, sends[i].run);
    }
  }

  lemma TransmitGrounded(record: Record, sends: seq<Sent>, told: set<Answer>, given: Option<nat>, sent: Sent)
    requires Coherent(record) && Grounded(record, sends, told, given) && record.pending.Some?
    requires sent.request == record.pending.value.request && sent.run == RunIdOf(record)
    ensures Grounded(record, sends + [sent], told, given)
  {
  }

  /** Saves that end a command, move within a stage group or end the workflow: nothing new is claimed about a run's end. */
  lemma MovedGrounded(record: Record, after: Record, sends: seq<Sent>, told: set<Answer>, given: Option<nat>)
    requires Grounded(record, sends, told, given)
    requires after.pending.None? || (after.pending == record.pending && after.stage == record.stage)
    requires after.mode == record.mode && after.workspace == record.workspace && after.accepted == record.accepted
    requires RunIdOf(after) == RunIdOf(record) && (after.run.Some? ==> RunTold(told, after.run.value))
    requires after.submission == record.submission || after.submission.None?
    requires after.receipts == record.receipts || after.receipts == []
    requires after.history.captureOf == record.history.captureOf && after.history.asked == record.history.asked
    requires record.history.settled <= after.history.settled
    requires after.recovery in {WasFinalized, WasAborted} ==> after.recovery == record.recovery && after.stage.AbortStage?
    requires OwnAction(after) && ReopeningDue(after)
    requires after.stage.DoneStage? ==> after.recovery in {KnownFailed, ReopenAbandoned}
    requires
      || after.stage in {AbortStage, DoneStage}
      || (record.stage in {HydrateStage, ReadyStage, HeartbeatStage} && after.stage in {HydrateStage, ReadyStage, HeartbeatStage})
      || (after.action == record.action && Later(record, after))
    ensures Grounded(after, sends, told, given)
  {
    forall i | 0 <= i < |sends| ensures Purposeful(after, told, sends[i].request, sends[i].run) {
      assert Purposeful(record, told, sends[i].request, sends[i].run);
    }
  }

  /** A stage of the same publication that can follow without a command. */
  predicate Later(record: Record, after: Record) {
    || after.stage == record.stage
    || (record.stage.UploadStage? && after.stage.SealStage?)
    || (record.stage.CaptureStage? && after.stage.FinalizeStage? && after.mode.ReadOnly?)
  }

  /** A failed command keeps its place with an unknown outcome, or is dropped with a known failure. */
  lemma FailCommandShape(record: Record, uncertain: bool, reading: bool, failure: Failure, expired: bool)
    requires record.pending.Some?
    ensures var after := FailCommand(record, uncertain, reading, failure, expired);
      if after.pending.Some? then
        && after == record.(pending := after.pending, recovery := after.recovery)
        && after.pending.value.request == record.pending.value.request
        && (after.recovery == record.recovery || after.recovery.UnknownOutcome?)
      else
        && after == record.(pending := None, action := None, stage := DoneStage, recovery := KnownFailed, history := after.history)
        && after.history == record.history.(settled := after.history.settled, blind := after.history.blind)
        && record.history.settled <= after.history.settled
  {
  }

  lemma FailCommandGrounded(record: Record, sends: seq<Sent>, told: set<Answer>, given: Option<nat>,
                            uncertain: bool, reading: bool, failure: Failure, expired: bool)
    requires Coherent(record) && Grounded(record, sends, told, given) && record.pending.Some? && !record.stage.ReopenStage?
    ensures Grounded(FailCommand(record, uncertain, reading, failure, expired), sends, told, given)
  {
    FailCommandShape(record, uncertain, reading, failure, expired);
    var after := FailCommand(record, uncertain, reading, failure, expired);
    if after.pending.Some? {
      KeptGrounded(record, after, sends, told, given);
    } else {
      MovedGrounded(record, after, sends, told, given);
    }
  }

  lemma CapturedGrounded(record: Record, sends: seq<Sent>, told: set<Answer>, given: Option<nat>, capture: Capture)
    requires Grounded(record, sends, told, given) && record.pending.None? && record.stage.CaptureStage?
    requires record.run.Some? && record.run.value.id.openedBy in record.history.settled && record.mode.ReadWrite?
    ensures Grounded(Captured(record, capture), sends, told, given)
  {
    var after := Captured(record, capture);
    forall i | 0 <= i < |sends| ensures Purposeful(after, told, sends[i].request, sends[i].run) {
      assert Purposeful(record, told, sends[i].request, sends[i].run);
    }
  }

  lemma FinishingGrounded(record: Record, sends: seq<Sent>, told: set<Answer>, given: Option<nat>, action: Action)
    requires Grounded(record, sends, told, given) && record.pending.None? && record.stage.ReadyStage? && record.run.Some?
    requires action.FinalizeAction? || action.CheckpointAction?
    ensures Grounded(Finishing(record, action), sends, told, given)
  {
    var after := Finishing(record, action);
    forall i | 0 <= i < |sends| ensures Purposeful(after, told, sends[i].request, sends[i].run) {
      assert Purposeful(record, told, sends[i].request, sends[i].run);
    }
  }

  // ---------------------------------------------------------------- accepting an answer

  lemma AcceptPurpose(record: Record, sends: seq<Sent>, next: Key, told: set<Answer>, value: Value)
    requires Coherent(record) && KeysKnown(record, sends, next) && Purpose(record, sends, told) && record.pending.Some?
    requires Answers(record.pending.value.request, record.pending.value.key, value)
    ensures Purpose(Accept(record, value), sends, told)
  {
    var after := Accept(record, value);
    AcceptShape(record, value);
    AcceptAsked(record, value);
    AcceptRunPurpose(record, value);
    AcceptUnopened(record, sends, next, value);
    forall i | 0 <= i < |sends| ensures Purposeful(after, told, sends[i].request, sends[i].run) {
      assert Purposeful(record, told, sends[i].request, sends[i].run);
    }
  }

  lemma AcceptAsked(record: Record, value: Value)
    requires Coherent(record) && record.pending.Some? && Answers(record.pending.value.request, record.pending.value.key, value)
    requires OwnAction(record)
    ensures var after := Accept(record, value);
      after.mode == record.mode && after.history.asked == record.history.asked && after.history.captureOf == record.history.captureOf && OwnAction(after)
  {
  }

  /** A stage of the publication is only reached from an earlier one, for the same action. */
  lemma AcceptStages(record: Record, value: Value)
    requires Coherent(record) && record.pending.Some? && Answers(record.pending.value.request, record.pending.value.key, value)
    ensures var after := Accept(record, value);
      && (InPublication(after.stage) || after.stage.ReopenStage? ==> InPublication(record.stage) && after.action == record.action)
      && (after.stage.FinalizeStage? ==> record.stage.SealStage?)
      && (after.stage in {SubmissionStage, UploadStage, SealStage} ==> record.stage in {SubmissionStage, UploadStage, SealStage})
      && (Early(after.stage) ==> Early(record.stage) || record.pending.value.request.OpenRun?)
  {
  }

  /** What a publication's stages need stays so from one to the next. */
  lemma LaterPurpose(record: Record, after: Record, run: RunId)
    requires RunPurpose(record, run)
    requires after.mode == record.mode && after.history.asked == record.history.asked && after.history.captureOf == record.history.captureOf
    requires InPublication(after.stage) || after.stage.ReopenStage? ==> InPublication(record.stage) && after.action == record.action
    requires after.stage.FinalizeStage? ==> record.stage.SealStage?
    requires after.stage in {SubmissionStage, UploadStage, SealStage} ==> record.stage in {SubmissionStage, UploadStage, SealStage}
    requires Early(after.stage) ==> Early(record.stage)
    ensures RunPurpose(after, run)
  {
  }

  lemma AcceptRunPurpose(record: Record, value: Value)
    requires Coherent(record) && record.pending.Some? && Answers(record.pending.value.request, record.pending.value.key, value)
    requires record.pending.value.key !in record.history.settled && OwnAction(record)
    requires forall run :: run in record.history.captureOf ==> run.openedBy in record.history.settled
    requires record.run.Some? ==> RunPurpose(record, record.run.value.id)
    ensures Accept(record, value).run.Some? ==> RunPurpose(Accept(record, value), Accept(record, value).run.value.id)
  {
    var after := Accept(record, value);
    AcceptAsked(record, value);
    if record.pending.value.request.OpenRun? {
      assert after.stage.HydrateStage? && after.run.value.id == RunId(record.pending.value.key);
    } else if record.run.Some? {
      AcceptStages(record, value);
      AcceptStaysEarly(record, value);
      LaterPurpose(record, after, record.run.value.id);
    } else {
      assert after.run.None?;
    }
  }

  lemma AcceptUnopened(record: Record, sends: seq<Sent>, next: Key, value: Value)
    requires Coherent(record) && KeysKnown(record, sends, next) && record.pending.Some?
    requires Answers(record.pending.value.request, record.pending.value.key, value)
    requires Early(record.stage) || InPublication(record.stage) ==>
      forall i :: 0 <= i < |sends| && sends[i].request.OpenRun? ==> sends[i].run != RunIdOf(record)
    ensures var after := Accept(record, value);
      Early(after.stage) || InPublication(after.stage) ==>
        forall i :: 0 <= i < |sends| && sends[i].request.OpenRun? ==> sends[i].run != RunIdOf(after)
  {
    AcceptShape(record, value);
    if record.pending.value.request.OpenRun? {
      forall i | 0 <= i < |sends| ensures sends[i].run != RunIdOf(Accept(record, value)) { assert record.pending.value.key !in record.history.settled; }
    } else {
      AcceptStaysEarly(record, value);
    }
  }

  lemma AcceptStaysEarly(record: Record, value: Value)
    requires Coherent(record) && record.pending.Some? && Answers(record.pending.value.request, record.pending.value.key, value)
    requires !record.pending.value.request.OpenRun?
    ensures var after := Accept(record, value);
      RunIdOf(after) == RunIdOf(record)
      && (Early(after.stage) || InPublication(after.stage) ==> Early(record.stage) || InPublication(record.stage))
  {
  }

  /** Accepting writes what the answer says, and of the rest only standing and evidence. */
  lemma AcceptReads(record: Record, value: Value)
    requires record.pending.Some? && Answers(record.pending.value.request, record.pending.value.key, value)
    ensures var p, after := record.pending.value, Accept(record, value);
      && after.pending.None?
      && after.workspace == (if p.request.CreateWorkspace? then Some(value.workspace) else record.workspace)
      && after.run == (if value.RunView? then Some(value.run) else record.run)
      && after.submission == (if value.SubmissionView? then Some(value.submission) else record.submission)
      && after.receipts == record.receipts + (if p.request.UploadFile? then [value.receipt] else [])
  {
  }

  lemma AcceptEnd(record: Record, told: set<Answer>, value: Value)
    requires Coherent(record) && EndTold(record, told) && record.pending.Some? && Answer(record.pending.value.request, value) in told
    requires Answers(record.pending.value.request, record.pending.value.key, value)
    ensures EndTold(Accept(record, value), told)
  {
    var a := Answer(record.pending.value.request, value);
    if a.request.FinalizeRun? && value.finalized { assert Finalizes(a, record.run.value.id); }
  }

  lemma AcceptTruthful(record: Record, told: set<Answer>, given: Option<nat>, value: Value)
    requires Coherent(record) && Truthful(record, told, given) && record.pending.Some? && Answer(record.pending.value.request, value) in told
    requires Answers(record.pending.value.request, record.pending.value.key, value)
    ensures Truthful(Accept(record, value), told, given)
  {
    AcceptReads(record, value);
    AcceptEnd(record, told, value);
  }

  lemma AcceptGrounded(record: Record, sends: seq<Sent>, next: Key, told: set<Answer>, given: Option<nat>, value: Value)
    requires Coherent(record) && KeysKnown(record, sends, next) && Grounded(record, sends, told, given) && record.pending.Some?
    requires Answer(record.pending.value.request, value) in told
    requires Answers(record.pending.value.request, record.pending.value.key, value)
    ensures Grounded(Accept(record, value), sends, told, given)
  {
    AcceptPurpose(record, sends, next, told, value);
    AcceptTruthful(record, told, given, value);
  }

  // ---------------------------------------------------------------- what a call is for

  /** What a call of the client is for; `settled` are the keys that were settled when it began. */
  datatype Goal = Publication(run: RunId, checkpoint: bool) | Renewal(run: RunId, settled: set<Key>) | Ending(run: RunId, settled: set<Key>)

  /**
   Where the record can be on the way to a goal: the run is held until its publication is finalized, a
   checkpoint then goes on to another run and nothing else does, and a renewal or an abort is over once
   its command is settled.
   */
  predicate Underway(record: Record, goal: Goal) {
    && goal.run.openedBy in record.history.settled
    && match goal
       case Publication(run, checkpoint) => Publishing(record, run, checkpoint)
       case Renewal(run, settled) =>
         && RunIdOf(record) == Some(run)
         && ((record.stage.HeartbeatStage? && record.history.settled == settled)
             || (record.stage.ReadyStage? && record.action.None? && record.recovery.ReadyForWork? && record.history.settled > settled))
       case Ending(run, settled) =>
         && RunIdOf(record) == Some(run)
         && ((record.stage.AbortStage? && record.history.settled == settled)
             || (record.stage.DoneStage? && record.action.None? && record.recovery.WasAborted? && record.history.settled > settled))
  }

  predicate Publishing(record: Record, run: RunId, checkpoint: bool) {
    match record.stage
    case CaptureStage | SubmissionStage | UploadStage | SealStage | FinalizeStage =>
      RunIdOf(record) == Some(run) && record.action == Some(if checkpoint then CheckpointAction else FinalizeAction)
    case ReopenStage => checkpoint && RunIdOf(record) == Some(run) && AcceptedFor(record, run)
    case HydrateStage | ReadyStage => checkpoint && record.run.Some? && RunIdOf(record) != Some(run) && AcceptedFor(record, run)
    case DoneStage => !checkpoint && RunIdOf(record) == Some(run) && record.recovery.WasFinalized?
    case _ => false
  }

  predicate AcceptedFor(record: Record, run: RunId) { record.accepted.Some? && record.accepted.value.run == run }

  ghost predicate StaysUnderway(before: Record, after: Record) {
    forall goal :: Underway(before, goal) ==> Underway(after, goal)
  }

  /** What is going on is no checkpoint. */
  ghost predicate EndsHere(record: Record) { exists goal :: Underway(record, goal) && !(goal.Publication? && goal.checkpoint) }

  ghost predicate NoOpeningFrom(sends: seq<Sent>, from: nat) {
    forall i :: from <= i < |sends| ==> !sends[i].request.OpenRun?
  }

  /** An accepted result keeps the record on its way, unless it is a finalization that failed. */
  lemma AcceptUnderway(before: Record, value: Value, goal: Goal)
    requires Coherent(before) && before.pending.Some? && before.pending.value.key !in before.history.settled
    requires Answers(before.pending.value.request, before.pending.value.key, value)
    requires before.pending.value.request.FinalizeRun? ==> value.finalized
    requires Underway(before, goal)
    ensures Underway(Accept(before, value), goal)
  {
    AcceptShape(before, value);
    if goal.Publication? { AcceptPublishing(before, value, goal.run, goal.checkpoint); }
  }

  lemma AcceptPublishing(before: Record, value: Value, run: RunId, checkpoint: bool)
    requires Coherent(before) && before.pending.Some? && before.pending.value.key !in before.history.settled
    requires Answers(before.pending.value.request, before.pending.value.key, value)
    requires before.pending.value.request.FinalizeRun? ==> value.finalized
    requires run.openedBy in before.history.settled && Publishing(before, run, checkpoint)
    ensures Publishing(Accept(before, value), run, checkpoint)
  {
    var p := before.pending.value;
    assert p.request.OpenRun? ==> before.stage.ReopenStage? && RunId(p.key) != run;
  }
}
