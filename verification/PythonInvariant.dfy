/**
 What every durable journal of the Python client keeps true about the commands that were
 ever transmitted, step by step; `sends` is the whole history of transmissions.
 */
module PythonInvariant {
  import opened Prelude
  import opened Exchange
  import opened Protocol
  import opened PythonJournal

  // ---------------------------------------------------------------- shape of the journal

  /** The command a phase prepares for itself. */
  predicate OwnCommand(phase: Phase, request: Request) {
    match phase
    case Creating => request.CreateWorkspace?
    case Opening | PublishedNeedsReopen => request.OpenRun?
    case SubmissionCreate => request.CreateSubmission?
    case Uploading => request.UploadFile?
    case Sealing => request.SealSubmission?
    case Finalizing => request.FinalizeRun?
    case _ => false
  }

  /** A request belongs to the journal: its kind is the phase's own or can interrupt any phase, and it names the held run. */
  predicate Fits(record: Record, request: Request) {
    && (OwnCommand(record.phase, request) || request.RenewLease? || request.AbortRun?)
    && (RequestRun(request).Some? ==> RequestRun(request) == RunIdOf(record))
    && (request.UploadFile? ==> request.index == record.uploadIndex)
    && (request.AbortRun? ==> !record.phase.Aborted?)
  }

  predicate Coherent(record: Record) {
    && (record.pending.Some? ==> Fits(record, record.pending.value.request))
    && (record.pending.Some? && record.rejection.Some? ==> record.rejection.value.key == record.pending.value.key)
    && (record.phase in {Creating, Opening} ==> record.run.None?)
    && (!(record.phase in {Creating, Opening}) && !Terminal(record.phase) ==> record.run.Some?)
  }

  ghost predicate KeysKnown(record: Record, sends: seq<Sent>, next: Key) {
    && (forall k :: k in record.history.settled ==> k < next)
    && (forall k :: k in record.history.blind ==> k < next)
    && (record.pending.Some? ==>
          && record.pending.value.key < next && record.pending.value.key !in record.history.settled
          && record.pending.value.key !in record.history.blind)
    && (record.run.Some? ==> record.run.value.id.openedBy in record.history.settled)
    && (forall i :: 0 <= i < |sends| ==> sends[i].key < next)
    && (forall i :: 0 <= i < |sends| && sends[i].run.Some? ==> sends[i].run.value.openedBy in record.history.settled)
    && (forall i :: 0 <= i < |sends| && RequestRun(sends[i].request).Some? ==> RequestRun(sends[i].request) == sends[i].run)
  }

  // ---------------------------------------------------------------- evidence

  /** What the journal claims about its pending command is true of every transmission of that key. */
  ghost predicate Evidence(record: Record, sends: seq<Sent>) {
    && (FirstDispatch(record) ==> NeverSent(sends, record.pending.value.key) && record.pending.value.operationId.None?)
    && (DefinitelyRejected(record) ==> AllRefused(sends, record.pending.value.key))
  }

  /**
   An accepted command is still pending under the same key, or its outcome is in the journal, or it was
   dropped blindly. An opening is never dropped blindly, and nothing of the workflow follows a blind drop.
   */
  ghost predicate NothingForgotten(record: Record, sends: seq<Sent>) {
    && (forall i :: 0 <= i < |sends| && sends[i].fate.Accepted? ==>
          || sends[i].key in record.history.settled
          || (record.pending.Some? && record.pending.value.key == sends[i].key)
          || (sends[i].key in record.history.blind && !sends[i].request.OpenRun?))
    && (record.history.blind != {} ==> NextStep(record).rank == 10)
  }

  /** Commands given up for good were refused every time they were sent. */
  ghost predicate GivenUp(record: Record, sends: seq<Sent>, next: Key) {
    && (record.rejectedCommand.Some? ==> DeadKey(record, sends, next, record.rejectedCommand.value.key))
    && (record.abandoned.Some? ==> DeadKey(record, sends, next, record.abandoned.value.command.key))
  }

  ghost predicate DeadKey(record: Record, sends: seq<Sent>, next: Key, key: Key) {
    && key < next
    && AllRefused(sends, key)
    && (record.pending.Some? ==> record.pending.value.key != key)
  }

  // ---------------------------------------------------------------- at most once

  /** The step the journal will perform next. */
  function NextStep(record: Record): Step {
    var run := RunIdOf(record);
    match record.phase
    case Creating => Step(run, 0, 0)
    case Opening | PublishedNeedsReopen => Step(run, 9, 0)
    case Hydrating | Ready | SubmissionCreate => Step(run, 1, 0)
    case Uploading => Step(run, 2, record.uploadIndex)
    case Sealing => Step(run, 3, 0)
    case Finalizing => Step(run, 4, 0)
    case _ => Step(run, 10, 0)
  }

  ghost predicate Behind(record: Record, sends: seq<Sent>) {
    forall i :: 0 <= i < |sends| && sends[i].fate.Accepted? && IsStep(sends[i].request) ==>
      || (record.pending.Some? && record.pending.value.key == sends[i].key)
      || Earlier(StepOf(sends[i].request, sends[i].run), NextStep(record))
  }

  /** A transmission of the pending key carries the pending request. */
  ghost predicate SameRequest(record: Record, sends: seq<Sent>) {
    record.pending.Some? ==> forall i :: 0 <= i < |sends| && sends[i].key == record.pending.value.key ==>
      sends[i].request == record.pending.value.request && sends[i].run == RunIdOf(record)
  }

  // ---------------------------------------------------------------- one capture per run

  ghost predicate Described(record: Record, sends: seq<Sent>) {
    && (forall i :: 0 <= i < |sends| ==> Describes(record.history, sends[i].request))
    && (record.pending.Some? ==> Describes(record.history, record.pending.value.request))
  }

  /** What has not been sent yet for the held run. */
  ghost predicate Unsent(record: Record, sends: seq<Sent>) {
    && (record.phase.Uploading? ==>
          forall i :: 0 <= i < |sends| && sends[i].request.SealSubmission? ==> sends[i].run != RunIdOf(record))
    && (record.phase in {Hydrating, Ready} ==>
          forall i :: 0 <= i < |sends| && PublicationRequest(sends[i].request) ==> sends[i].run != RunIdOf(record))
    && (record.phase.SubmissionCreate? ==>
          forall i :: 0 <= i < |sends| && Publishes(sends[i].request) ==> sends[i].run != RunIdOf(record))
  }

  /** What the journal holds is what the run publishes. */
  predicate Bound(record: Record) {
    && (record.phase in {SubmissionCreate, Uploading, Sealing} && record.run.Some? ==>
          record.run.value.id in record.history.captureOf)
    && (record.phase in {SubmissionCreate, Uploading, Sealing} && record.run.Some? && record.capture.Some? ==>
          HasCapture(record.history, record.run.value.id, record.capture.value))
    && (record.phase in {Uploading, Sealing} && record.run.Some? && record.submission.Some? ==>
          HasSubmission(record.history, record.run.value.id, record.submission.value.id))
    && (record.phase.Finalizing? && record.mode.ReadWrite? && record.run.Some? && record.submission.Some? ==>
          record.run.value.id in record.history.captureOf
          && HasSubmission(record.history, record.run.value.id, record.submission.value.id))
  }

  ghost predicate OneCapture(record: Record, sends: seq<Sent>) {
    Described(record, sends) && Unsent(record, sends) && Bound(record) && Collected(record)
  }

  /** The receipts in the journal are those read for the files before the upload index, in order. */
  ghost predicate Collected(record: Record) {
    && (record.phase.SubmissionCreate? ==> record.receipts == [] && record.uploadIndex == 0)
    && (record.phase in {Uploading, Sealing} && record.run.Some? && record.run.value.id in record.history.captureOf ==>
          var manifest := record.history.captureOf[record.run.value.id].manifest;
          && HasReceipts(record.history, record.run.value.id, record.receipts)
          && (record.phase.Uploading? ==> record.uploadIndex <= |manifest| && ReceiptsFor(record.receipts, manifest, record.uploadIndex))
          && (record.phase.Sealing? ==> SealsFiles(manifest, record.receipts)))
  }

  // ---------------------------------------------------------------- abort is final

  predicate Aborting(record: Record) {
    Terminal(record.phase) || (record.pending.Some? && record.pending.value.request.AbortRun?)
  }

  ghost predicate AbortFinal(record: Record, sends: seq<Sent>) {
    && (record.pending.Some? && record.pending.value.request.AbortRun? ==> record.history.abortFrom.Some?)
    && (record.history.abortFrom.Some? ==>
          && Aborting(record)
          && record.history.abortFrom.value <= |sends|
          && NoPublicationFrom(sends, record.history.abortFrom.value))
  }

  /** What is published, and when. */
  ghost predicate Orderly(record: Record, sends: seq<Sent>) {
    Behind(record, sends) && AtMostOnce(sends) && OneCapture(record, sends) && AbortFinal(record, sends)
  }

  ghost predicate Good(record: Record, sends: seq<Sent>, next: Key) {
    && Coherent(record)
    && KeysKnown(record, sends, next)
    && SameRequest(record, sends)
    && Evidence(record, sends)
    && NothingForgotten(record, sends)
    && GivenUp(record, sends, next)
    && Orderly(record, sends)
  }

  // ---------------------------------------------------------------- every step keeps it

  lemma PrepareKeeps(record: Record, sends: seq<Sent>, next: Key, request: Request)
    requires Good(record, sends, next)
    requires MayPrepare(record, request) && Fits(record, request) && Describes(record.history, request)
    ensures Good(Prepare(record, next, request, |sends|), sends, next + 1)
  {
    var after := Prepare(record, next, request, |sends|);
    assert after.history.settled == record.history.settled;
    if record.pending.Some? {
      assert AllRefused(sends, record.pending.value.key);
    }
    assert NothingForgotten(after, sends);
    assert GivenUp(after, sends, next + 1);
    PrepareOrderly(record, sends, next, request);
  }

  lemma PrepareOrderly(record: Record, sends: seq<Sent>, next: Key, request: Request)
    requires Good(record, sends, next)
    requires MayPrepare(record, request) && Fits(record, request) && Describes(record.history, request)
    ensures Orderly(Prepare(record, next, request, |sends|), sends)
  {
    if record.pending.Some? {
      assert AllRefused(sends, record.pending.value.key);
    }
    assert Behind(Prepare(record, next, request, |sends|), sends);
  }

  lemma BeginKeeps(record: Record, sends: seq<Sent>, next: Key)
    requires Good(record, sends, next) && record.pending.Some?
    ensures Good(Begin(record), sends, next)
  {
  }

  lemma TransmitKeeps(record: Record, sends: seq<Sent>, next: Key, sent: Sent)
    requires Good(record, sends, next) && record.pending.Some? && record.pending.value.phase.Dispatched?
    requires sent.key == record.pending.value.key && sent.request == record.pending.value.request
    requires sent.run == RunIdOf(record)
    requires PublicationRequest(sent.request) ==> record.history.abortFrom.None?
    ensures Good(record, sends + [sent], next)
  {
    TransmitOrderly(record, sends, next, sent);
  }

  lemma TransmitOrderly(record: Record, sends: seq<Sent>, next: Key, sent: Sent)
    requires Good(record, sends, next) && record.pending.Some? && record.pending.value.phase.Dispatched?
    requires sent.key == record.pending.value.key && sent.request == record.pending.value.request
    requires sent.run == RunIdOf(record)
    requires PublicationRequest(sent.request) ==> record.history.abortFrom.None?
    ensures Orderly(record, sends + [sent])
  {
    var all := sends + [sent];
    forall i, j | 0 <= i < |all| && 0 <= j < |all|
      ensures SameKeyIfSameStep(all[i], all[j])
    {
      if i < |sends| && j < |sends| {
        assert SameKeyIfSameStep(sends[i], sends[j]);
      }
    }
  }

  // ---------------------------------------------------------------- replies

  /** What the transport can throw: any response the server may send, or a failure of the client's own. */
  predicate ThrownByTransport(failure: Failure) {
    || failure.unknown
    || (!failure.outcomeKnown && failure.status == failure.httpStatus && failure.httpStatus != 0)
    || (!failure.outcomeKnown && failure.httpStatus == 0 && failure.status == 422
        && !failure.code.InvalidTransition? && failure.operationId.None?)
  }

  /** What waiting for a durable operation can throw. */
  predicate ThrownByWait(failure: Failure) {
    failure.operationId.Some? && (failure.unknown || (failure.outcomeKnown && failure.httpStatus == 0))
  }

  predicate Thrown(failure: Failure) { ThrownByTransport(failure) || ThrownByWait(failure) }

  /** The lookup reads the run the journal holds. */
  predicate LooksUp(record: Record, lookup: Lookup) {
    lookup.Remote? && record.run.Some? ==> lookup.run.id == record.run.value.id
  }

  /** Rewriting the pending command's status, the held view of the same run or the proof keeps everything the proof supports. */
  lemma RetainKeeps(record: Record, after: Record, sends: seq<Sent>, next: Key)
    requires Good(record, sends, next) && record.pending.Some? && after.pending.Some?
    requires after.pending.value.key == record.pending.value.key && after.pending.value.request == record.pending.value.request
    requires RunIdOf(after) == RunIdOf(record)
    requires after == record.(pending := after.pending, run := after.run, rejection := after.rejection)
    requires after.rejection.Some? ==> after.rejection.value.key == after.pending.value.key
    requires Evidence(after, sends)
    ensures Good(after, sends, next)
  {
    assert NextStep(after) == NextStep(record);
    assert OneCapture(after, sends);
  }

  /** Dropping the command in a terminal phase: its outcome is recorded, or every transmission was refused, or it is marked. */
  lemma DropKeeps(record: Record, after: Record, sends: seq<Sent>, next: Key)
    requires Good(record, sends, next) && record.pending.Some? && Terminal(after.phase)
    requires after == record.(pending := None, run := after.run, rejection := after.rejection, phase := after.phase,
                              failedCommand := after.failedCommand, history := after.history)
    requires RunIdOf(after) == RunIdOf(record)
    requires
      || after.history == record.history.(settled := record.history.settled + {record.pending.value.key})
      || (after.history == record.history && AllRefused(sends, record.pending.value.key))
      || (after.history == record.history.(blind := record.history.blind + {record.pending.value.key})
          && !record.pending.value.request.OpenRun?)
    ensures Good(after, sends, next)
  {
    assert NextStep(after).rank == 10;
    assert NothingForgotten(after, sends);
    assert Behind(after, sends);
    assert OneCapture(after, sends) by {
      forall i | 0 <= i < |sends| ensures Describes(after.history, sends[i].request) {
        assert Describes(record.history, sends[i].request);
      }
    }
  }

  /** Only the status of the pending command, the view of the run and the proof differ. */
  predicate Kept(record: Record, after: Record) {
    && record.pending.Some? && after.pending.Some?
    && after.pending.value.key == record.pending.value.key
    && after.pending.value.request == record.pending.value.request
    && after == record.(pending := after.pending, run := after.run, rejection := after.rejection)
  }

  /** The command is gone, in a terminal phase. */
  predicate Dropped(record: Record, after: Record) {
    && Terminal(after.phase)
    && after == record.(pending := None, run := after.run, rejection := after.rejection, phase := after.phase,
                        failedCommand := after.failedCommand, history := after.history)
  }

  lemma KnownShape(record: Record, uncertain: bool, failure: Failure, lookup: Lookup)
    requires record.pending.Some? && LooksUp(record, lookup)
    ensures var known := RefreshedRun(WithOperation(record, failure.operationId), uncertain, failure, lookup);
      Kept(record, known) && RunIdOf(known) == RunIdOf(record)
  {
  }

  lemma ReopenShape(record: Record, known: Record, error: Failure)
    requires Kept(record, known) && RunIdOf(known) == RunIdOf(record)
    ensures Kept(record, Reopen(known, error)) && RunIdOf(Reopen(known, error)) == RunIdOf(record)
    ensures Kept(record, WithPhase(known, OutcomeUnknown)) && RunIdOf(WithPhase(known, OutcomeUnknown)) == RunIdOf(record)
  {
  }

  lemma GiveUpShape(record: Record, reopened: Record, error: Failure, refused: bool)
    requires Kept(record, reopened) && RunIdOf(reopened) == RunIdOf(record)
    ensures var after := GiveUp(reopened, error, refused);
      Dropped(record, after) && after.pending.None? && RunIdOf(after) == RunIdOf(record)
      && after.history.abortFrom == record.history.abortFrom
  {
  }

  /** A failed reply either keeps the command under its key or drops it. */
  lemma FailShape(record: Record, uncertain: bool, failure: Failure, lookup: Lookup)
    requires record.pending.Some? && LooksUp(record, lookup)
    ensures var after := Fail(record, uncertain, failure, lookup);
      && RunIdOf(after) == RunIdOf(record)
      && after.history.abortFrom == record.history.abortFrom
      && (if after.pending.Some? then Kept(record, after) else Dropped(record, after))
  {
    if !failure.unknown {
      var known := RefreshedRun(WithOperation(record, failure.operationId), uncertain, failure, lookup);
      KnownShape(record, uncertain, failure, lookup);
      var error := EffectiveFailure(record, uncertain, failure, lookup);
      ReopenShape(record, known, error);
      GiveUpShape(record, Reopen(known, error), error, CleanRejection(record.pending.value.request, failure));
    }
  }

  /** A kept command is no first dispatch, and counts as rejected only after a clean rejection of a certain command. */
  lemma FailProof(record: Record, uncertain: bool, failure: Failure, lookup: Lookup)
    requires record.pending.Some? && record.rejection.None? && record.attempt.Some? && record.attempt.value.dispatched
    requires Thrown(failure)
    ensures var after := Fail(record, uncertain, failure, lookup);
      && !FirstDispatch(after) && (DefinitelyRejected(after) ==> !uncertain && CleanRejection(record.pending.value.request, failure))
      && (after.rejection.Some? ==> after.rejection.value.key == record.pending.value.key)
  {
  }

  /**
   How a command ends: as expired when its run turned out to be or the exception says so, as in conflict
   on a 409, and as failed otherwise; the journal keeps the command and the run as it was last read.
   */
  lemma DropsAs(record: Record, uncertain: bool, failure: Failure, lookup: Lookup)
    requires record.pending.Some? && LooksUp(record, lookup)
    ensures var after := Fail(record, uncertain, failure, lookup);
      var expired := NeedsLookup(record, uncertain, failure) && lookup.Remote? && lookup.run.state.ExpiredRun?;
      after.pending.None? ==>
        && (after.phase.Expired? <==> expired || failure.status == 410)
        && (after.phase.Conflicted? <==> !expired && failure.status == 409)
        && (after.phase.Failed? <==> !after.phase.Expired? && !after.phase.Conflicted?)
        && after.failedCommand.Some? && after.failedCommand.value.key == record.pending.value.key
        && after.failedCommand.value.request == record.pending.value.request
        && after.run == (if expired then Some(lookup.run) else record.run)
  {
    if !failure.unknown {
      var known := RefreshedRun(WithOperation(record, failure.operationId), uncertain, failure, lookup);
      KnownShape(record, uncertain, failure, lookup);
      var error := EffectiveFailure(record, uncertain, failure, lookup);
      ReopenShape(record, known, error);
      GiveUpShape(record, Reopen(known, error), error, CleanRejection(record.pending.value.request, failure));
    }
  }

  /** What a drop does to the history. */
  function Ended(record: Record, failure: Failure): History
    requires record.pending.Some?
  {
    var p := record.pending.value;
    if failure.outcomeKnown then record.history.(settled := record.history.settled + {p.key})
    else if CleanRejection(p.request, failure) then record.history
    else record.history.(blind := record.history.blind + {p.key})
  }

  /** A command is dropped with its operation's outcome, after a clean rejection of a certain command, or else blindly. */
  lemma FailGrounds(record: Record, uncertain: bool, failure: Failure, lookup: Lookup)
    requires record.pending.Some? && Thrown(failure) && Fail(record, uncertain, failure, lookup).pending.None?
    ensures Fail(record, uncertain, failure, lookup).history == Ended(record, failure)
    ensures failure.outcomeKnown || (!uncertain && !record.pending.value.request.OpenRun?)
  {
    var known := RefreshedRun(WithOperation(record, failure.operationId), uncertain, failure, lookup);
    var error := EffectiveFailure(record, uncertain, failure, lookup);
    assert known.history == record.history && Reopen(known, error).history == record.history;
    assert known.pending.value.key == record.pending.value.key;
    assert error.outcomeKnown == failure.outcomeKnown;
  }

  lemma FailKeeps(record: Record, sends: seq<Sent>, next: Key, uncertain: bool, failure: Failure, lookup: Lookup)
    requires Good(record, sends, next) && record.pending.Some?
    requires record.rejection.None? && record.attempt.Some? && record.attempt.value.dispatched
    requires Thrown(failure) && LooksUp(record, lookup)
    requires !uncertain && CleanRejection(record.pending.value.request, failure) ==> AllRefused(sends, record.pending.value.key)
    ensures Good(Fail(record, uncertain, failure, lookup), sends, next)
    ensures Fail(record, uncertain, failure, lookup).history.abortFrom == record.history.abortFrom
  {
    FailShape(record, uncertain, failure, lookup);
    FailProof(record, uncertain, failure, lookup);
    var after := Fail(record, uncertain, failure, lookup);
    if after.pending.Some? {
      RetainKeeps(record, after, sends, next);
    } else {
      FailGrounds(record, uncertain, failure, lookup);
      DropKeeps(record, after, sends, next);
    }
  }

  /** Accepting the pending command never steps back, and a workflow step always moves on. */
  lemma AcceptAdvances(record: Record, value: Value)
    requires Coherent(record) && record.pending.Some?
    requires Answers(record.pending.value.request, record.pending.value.key, value)
    ensures var now, later := NextStep(record), NextStep(Accept(record, value));
      if record.pending.value.request.OpenRun? then later.run == Some(RunId(record.pending.value.key))
      else later == now || later.rank == 10 || (later.run == now.run && Earlier(now, later))
    ensures var now, later := NextStep(record), NextStep(Accept(record, value));
      IsStep(record.pending.value.request) && !record.pending.value.request.OpenRun? ==> later != now
  {
  }

  lemma AcceptBehind(record: Record, sends: seq<Sent>, next: Key, value: Value)
    requires Good(record, sends, next) && record.pending.Some?
    requires Answers(record.pending.value.request, record.pending.value.key, value)
    ensures Behind(Accept(record, value), sends)
  {
    AcceptAdvances(record, value);
    var now, later := NextStep(record), NextStep(Accept(record, value));
    var p := record.pending.value;
    forall i | 0 <= i < |sends| && sends[i].fate.Accepted? && IsStep(sends[i].request)
      ensures Earlier(StepOf(sends[i].request, sends[i].run), later)
    {
      var step := StepOf(sends[i].request, sends[i].run);
      if sends[i].key == p.key {
        assert sends[i].request == p.request;
        assert step == now;
      } else {
        assert Earlier(step, now);
      }
    }
  }

  lemma AcceptShape(record: Record, value: Value)
    requires Coherent(record) && record.pending.Some?
    requires Answers(record.pending.value.request, record.pending.value.key, value)
    ensures var after := Accept(record, value);
      && Coherent(after) && after.pending.None?
      && after.history.settled == record.history.settled + {record.pending.value.key}
      && after.history.abortFrom == record.history.abortFrom
      && after.rejectedCommand == record.rejectedCommand && after.abandoned == record.abandoned
      && (after.run.Some? ==> RunIdOf(after) == RunIdOf(record) || after.run.value.id == RunId(record.pending.value.key))
      && (Aborting(record) ==> Terminal(after.phase))
  {
  }

  lemma AcceptCaptures(record: Record, value: Value)
    requires record.pending.Some? && Answers(record.pending.value.request, record.pending.value.key, value)
    ensures Accept(record, value).history.captureOf == record.history.captureOf
  {
  }

  lemma AcceptBlind(record: Record, value: Value)
    requires record.pending.Some? && Answers(record.pending.value.request, record.pending.value.key, value)
    ensures Accept(record, value).history.blind == record.history.blind
  {
  }

  lemma AcceptHistory(record: Record, value: Value)
    requires record.pending.Some? && Answers(record.pending.value.request, record.pending.value.key, value)
    ensures var before, after := record.history, Accept(record, value).history;
      after.captureOf == before.captureOf && after.blind == before.blind
  {
    AcceptCaptures(record, value);
    AcceptBlind(record, value);
  }

  lemma AcceptSubmissions(record: Record, value: Value)
    requires record.pending.Some? && Answers(record.pending.value.request, record.pending.value.key, value)
    ensures var before, after := record.history, Accept(record, value).history;
      (if record.pending.value.request.CreateSubmission?
          then after.submissionOf.Keys == before.submissionOf.Keys + {record.pending.value.request.run}
               && forall run :: run in before.submissionOf && run != record.pending.value.request.run ==>
                    after.submissionOf[run] == before.submissionOf[run]
          else after.submissionOf == before.submissionOf)
  {
  }

  lemma AcceptReceipts(record: Record, value: Value, run: RunId)
    requires record.pending.Some? && Answers(record.pending.value.request, record.pending.value.key, value)
    requires run in record.history.receiptsOf
    requires record.pending.value.request.CreateSubmission? || record.pending.value.request.UploadFile? ==>
      record.pending.value.request.run != run
    ensures var after := Accept(record, value).history;
      run in after.receiptsOf && after.receiptsOf[run] == record.history.receiptsOf[run]
  {
  }

  lemma AcceptDescribes(record: Record, sends: seq<Sent>, next: Key, value: Value, i: nat)
    requires Good(record, sends, next) && record.pending.Some? && i < |sends|
    requires Answers(record.pending.value.request, record.pending.value.key, value)
    ensures Describes(Accept(record, value).history, sends[i].request)
  {
    AcceptHistory(record, value);
    AcceptSubmissions(record, value);
    assert Describes(record.history, sends[i].request);
    if sends[i].request.SealSubmission? {
      assert RequestRun(sends[i].request) == sends[i].run;
      assert record.phase in {SubmissionCreate, Uploading} ==> sends[i].run != RunIdOf(record);
      AcceptReceipts(record, value, sends[i].request.run);
    }
    if record.pending.value.request.CreateSubmission? && Publishes(sends[i].request) {
      assert record.phase.SubmissionCreate?;
      assert sends[i].run != RunIdOf(record);
    }
  }

  /** A submission starts without receipts, and an upload adds the receipt of the next file. */
  lemma AcceptCollected(record: Record, value: Value)
    requires Coherent(record) && Bound(record) && Collected(record) && record.pending.Some?
    requires Describes(record.history, record.pending.value.request)
    requires Answers(record.pending.value.request, record.pending.value.key, value)
    ensures Collected(Accept(record, value))
  {
    var p := record.pending.value;
    if p.request.CreateSubmission? {
      ReceiptsStart(record.history.captureOf[p.request.run].manifest);
    } else if p.request.UploadFile? {
      UploadCollected(record, value);
    }
  }

  lemma UploadCollected(record: Record, value: Value)
    requires Coherent(record) && Collected(record) && record.pending.Some? && record.pending.value.request.UploadFile?
    requires Describes(record.history, record.pending.value.request) && record.pending.value.request.entry.File?
    requires Answers(record.pending.value.request, record.pending.value.key, value)
    ensures Collected(Accept(record, value))
  {
    var p := record.pending.value;
    var manifest := record.history.captureOf[p.request.run].manifest;
    var after := Accept(record, value);
    ReceiptsAdd(record.receipts, manifest, record.uploadIndex, value.receipt);
    assert after.history.captureOf == record.history.captureOf && RunIdOf(after) == RunIdOf(record);
    assert HasReceipts(after.history, p.request.run, after.receipts);
  }

  lemma AcceptBound(record: Record, value: Value)
    requires Coherent(record) && Bound(record) && record.pending.Some? && Describes(record.history, record.pending.value.request)
    requires Answers(record.pending.value.request, record.pending.value.key, value) && !record.pending.value.request.OpenRun?
    ensures Bound(Accept(record, value))
  {
  }

  lemma AcceptUnsent(record: Record, sends: seq<Sent>, value: Value)
    requires Coherent(record) && Unsent(record, sends) && record.pending.Some? && !record.pending.value.request.OpenRun?
    requires Answers(record.pending.value.request, record.pending.value.key, value)
    ensures Unsent(Accept(record, value), sends)
  {
    assert RunIdOf(Accept(record, value)) == RunIdOf(record);
  }

  lemma AcceptCapture(record: Record, sends: seq<Sent>, next: Key, value: Value)
    requires Good(record, sends, next) && record.pending.Some?
    requires Answers(record.pending.value.request, record.pending.value.key, value)
    ensures OneCapture(Accept(record, value), sends)
  {
    forall i | 0 <= i < |sends| ensures Describes(Accept(record, value).history, sends[i].request) {
      AcceptDescribes(record, sends, next, value, i);
    }
    AcceptCollected(record, value);
    AcceptShape(record, value);
    if record.pending.value.request.OpenRun? {
      OpenedUnused(record, sends, next, value);
    } else {
      AcceptUnsent(record, sends, value);
      AcceptBound(record, value);
    }
  }

  /** A run just opened has published nothing yet. */
  lemma OpenedUnused(record: Record, sends: seq<Sent>, next: Key, value: Value)
    requires Good(record, sends, next) && record.pending.Some? && record.pending.value.request.OpenRun?
    requires Answers(record.pending.value.request, record.pending.value.key, value)
    ensures Accept(record, value).phase.Hydrating?
    ensures forall i :: 0 <= i < |sends| ==> sends[i].run != RunIdOf(Accept(record, value))
  {
    assert record.pending.value.key !in record.history.settled;
  }

  lemma AcceptKeeps(record: Record, sends: seq<Sent>, next: Key, value: Value)
    requires Good(record, sends, next) && record.pending.Some?
    requires Answers(record.pending.value.request, record.pending.value.key, value)
    ensures Good(Accept(record, value), sends, next)
    ensures Accept(record, value).history.abortFrom == record.history.abortFrom
  {
    AcceptOrderly(record, sends, next, value);
    AcceptShape(record, value);
    AcceptHistory(record, value);
    AcceptAdvances(record, value);
    var after := Accept(record, value);
    assert KeysKnown(after, sends, next);
    assert NothingForgotten(after, sends);
  }

  lemma AcceptOrderly(record: Record, sends: seq<Sent>, next: Key, value: Value)
    requires Good(record, sends, next) && record.pending.Some?
    requires Answers(record.pending.value.request, record.pending.value.key, value)
    ensures Orderly(Accept(record, value), sends)
  {
    AcceptBehind(record, sends, next, value);
    AcceptCapture(record, sends, next, value);
    AcceptShape(record, value);
  }

  lemma SettleKeeps(record: Record, sends: seq<Sent>, next: Key, uncertain: bool, reply: Reply, lookup: Lookup)
    requires Good(record, sends, next) && record.pending.Some?
    requires Begun(record)
    requires reply.Answered? ==> Answers(record.pending.value.request, record.pending.value.key, reply.value)
    requires reply.Threw? ==> Thrown(reply.failure)
    requires LooksUp(record, lookup)
    requires !uncertain && reply.Threw? && CleanRejection(record.pending.value.request, reply.failure) ==> AllRefused(sends, record.pending.value.key)
    ensures Good(Settle(record, uncertain, reply, lookup), sends, next)
    ensures Settle(record, uncertain, reply, lookup).history.abortFrom == record.history.abortFrom
  {
    match reply
    case Answered(value) =>
      if SealMismatch(record, value) {
        FailKeeps(record, sends, next, uncertain, ReceiptMismatchFailure, lookup);
      } else {
        AcceptKeeps(record, sends, next, value);
      }
    case Threw(failure) => FailKeeps(record, sends, next, uncertain, failure, lookup);
  }

  lemma StartPublicationCapture(record: Record, sends: seq<Sent>, next: Key, checkpoint: bool, capture: Capture)
    requires Good(record, sends, next) && record.pending.None? && record.phase.Ready?
    ensures OneCapture(StartPublication(record, checkpoint, capture), sends)
  {
    var after := StartPublication(record, checkpoint, capture);
    forall i | 0 <= i < |sends| ensures Describes(after.history, sends[i].request) {
      assert Describes(record.history, sends[i].request);
    }
  }

  lemma StartPublicationKeeps(record: Record, sends: seq<Sent>, next: Key, checkpoint: bool, capture: Capture)
    requires Good(record, sends, next) && record.pending.None? && record.phase.Ready?
    ensures Good(StartPublication(record, checkpoint, capture), sends, next)
  {
    var after := StartPublication(record, checkpoint, capture);
    StartPublicationCapture(record, sends, next, checkpoint, capture);
    assert after.history.settled == record.history.settled && after.history.abortFrom == record.history.abortFrom;
    assert after.pending.None? && after.phase in {SubmissionCreate, Finalizing};
    assert NextStep(after).run == NextStep(record).run;
    assert Behind(after, sends);
  }

  /** Journal writes that move no command: they keep the run's identity and never step back. */
  lemma MoveKeeps(record: Record, after: Record, sends: seq<Sent>, next: Key)
    requires Good(record, sends, next) && Coherent(after)
    requires after == record.(run := after.run, phase := after.phase, uploadIndex := after.uploadIndex,
                              checkpoint := after.checkpoint, capture := after.capture, cleanup := after.cleanup)
    requires RunIdOf(after) == RunIdOf(record)
    requires after.capture == record.capture || after.capture.None?
    requires NextStep(after) == NextStep(record) || Earlier(NextStep(record), NextStep(after))
    requires
      || after.phase == record.phase
      || (record.phase.Hydrating? && after.phase.Ready?)
      || (record.phase.Uploading? && after.phase.Sealing?)
    requires Collected(after)
    ensures Good(after, sends, next)
  {
    assert Behind(after, sends);
    assert OneCapture(after, sends);
  }

  lemma RetireKeeps(record: Record, sends: seq<Sent>, next: Key, remote: Run, operation: OperationId)
    requires Good(record, sends, next) && DefinitelyRejected(record)
    requires record.run.Some? && remote.id == record.run.value.id
    ensures Good(Retire(record, remote, operation), sends, next)
  {
    var after := Retire(record, remote, operation);
    assert NextStep(after).rank == 10;
    assert NothingForgotten(after, sends);
    assert Behind(after, sends);
    assert OneCapture(after, sends);
  }

  // ---------------------------------------------------------------- what a good journal guarantees

  lemma OneCapturePerRun(record: Record, sends: seq<Sent>, next: Key)
    requires Good(record, sends, next)
    ensures forall i, j :: 0 <= i < |sends| && 0 <= j < |sends| && sends[i].run == sends[j].run ==>
              SamePublication(sends[i].request, sends[j].request)
  {
    forall i, j | 0 <= i < |sends| && 0 <= j < |sends| && sends[i].run == sends[j].run
      ensures SamePublication(sends[i].request, sends[j].request)
    {
      assert Describes(record.history, sends[i].request) && Describes(record.history, sends[j].request);
      assert RequestRun(sends[i].request).Some? ==> RequestRun(sends[i].request) == sends[i].run;
    }
  }

  /**
   No run the server opened is lost: the key of every accepted opening is pending or its run
   was read into the journal, and it is never the key of an abandoned or replaced command.
   */
  lemma NoOrphanedRun(record: Record, sends: seq<Sent>, next: Key, i: nat)
    requires Good(record, sends, next)
    requires i < |sends| && sends[i].request.OpenRun? && sends[i].fate.Accepted?
    ensures sends[i].key in record.history.settled || (record.pending.Some? && record.pending.value.key == sends[i].key)
    ensures record.abandoned.Some? ==> record.abandoned.value.command.key != sends[i].key
    ensures record.rejectedCommand.Some? ==> record.rejectedCommand.value.key != sends[i].key
    ensures DefinitelyRejected(record) ==> record.pending.value.key != sends[i].key
  {
    if record.abandoned.Some? {
      assert AllRefused(sends, record.abandoned.value.command.key);
    }
    if record.rejectedCommand.Some? {
      assert AllRefused(sends, record.rejectedCommand.value.key);
    }
  }

  // ---------------------------------------------------------------- what the journal forgets

  /** The command is gone although neither its outcome nor a clean rejection is known. */
  predicate DroppedBlindly(record: Record, uncertain: bool, failure: Failure, lookup: Lookup)
    requires record.pending.Some?
  {
    && Fail(record, uncertain, failure, lookup).pending.None?
    && !failure.outcomeKnown
    && !CleanRejection(record.pending.value.request, failure)
  }

  /**
   For any failure of the transport, blind dropping happens exactly when a certain command without
   an operation meets one of two responses that name none: an INVALID_TRANSITION without a 4xx status
   while its run turns out to be expired, or to a creation, an error that leaves the creation open.
   */
  lemma BlindDropExactly(record: Record, uncertain: bool, failure: Failure, lookup: Lookup)
    requires record.pending.Some? && ThrownByTransport(failure)
    ensures DroppedBlindly(record, uncertain, failure, lookup) <==>
      && !uncertain && !failure.unknown
      && !record.pending.value.request.OpenRun?
      && record.pending.value.operationId.None? && failure.operationId.None?
      && (|| (NeedsLookup(record, uncertain, failure) && lookup.Remote? && lookup.run.state.ExpiredRun? && !ClientError(failure.httpStatus))
          || LeavesOpen(record.pending.value.request, failure.httpStatus, failure.code))
  {
    var known := RefreshedRun(WithOperation(record, failure.operationId), uncertain, failure, lookup);
    assert known.pending == WithOperation(record, failure.operationId).pending;
  }

  /** The mark in the history is made exactly then. */
  lemma BlindExactly(record: Record, uncertain: bool, failure: Failure, lookup: Lookup)
    requires record.pending.Some? && Thrown(failure) && LooksUp(record, lookup)
    requires record.pending.value.key !in record.history.blind
    ensures record.pending.value.key in Fail(record, uncertain, failure, lookup).history.blind <==>
      DroppedBlindly(record, uncertain, failure, lookup)
  {
    FailShape(record, uncertain, failure, lookup);
    if Fail(record, uncertain, failure, lookup).pending.None? { FailGrounds(record, uncertain, failure, lookup); }
  }

  /** The journal as `_dispatch` saves it before the request leaves. */
  predicate Begun(record: Record) {
    && record.pending.Some? && record.pending.value.phase.Dispatched?
    && record.rejection.None?
    && record.attempt.Some? && record.attempt.value.dispatched
  }
}
