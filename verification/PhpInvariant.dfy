/**
 What every durable record of the PHP client keeps true about the commands that were ever
 transmitted, step by step; `sends` is the whole history of transmissions.
 */
module PhpInvariant {
  import opened Exchange
  import opened PhpJournal
  import opened Prelude
  import opened Protocol

  predicate Coherent(record: Record) {
    && (record.pending.Some? ==>
         var request := record.pending.value.request;
         && OwnRequest(record.stage, request)
         && (RequestRun(request).Some? ==> RequestRun(request) == RunIdOf(record))
         && (request.UploadFile? ==> request.index == record.uploadIndex))
    && (record.stage in {CreateStage, OpenStage} ==> record.run.None?)
    && (!(record.stage in {CreateStage, OpenStage, DoneStage}) ==> record.run.Some?)
    && (record.stage.ReopenStage? ==> record.action == Some(CheckpointAction))
    && (record.stage in {SubmissionStage, UploadStage, SealStage} ==> record.capture.Some?)
    && (record.stage in {UploadStage, SealStage} ==> record.submission.Some?)
  }

  ghost predicate KeysKnown(record: Record, sends: seq<Sent>, next: Key) {
    && (forall k :: k in record.history.settled ==> k < next)
    && (forall k :: k in record.history.blind ==> k < next)
    && (record.pending.Some? ==>
         && record.pending.value.key < next && record.pending.value.key !in record.history.settled
         && record.pending.value.key !in record.history.blind)
    && (record.run.Some? ==> record.run.value.id.openedBy in record.history.settled)
    && (forall i :: 0 <= i < |sends| ==> sends[i].key < next)
    && (forall i :: 0 <= i < |sends| && sends[i].run.Some? ==> sends[i].run.value.openedBy in record.history.settled)
    && (forall i :: 0 <= i < |sends| && RequestRun(sends[i].request).Some? ==> RequestRun(sends[i].request) == sends[i].run)
  }

  ghost predicate SameRequest(record: Record, sends: seq<Sent>) {
    record.pending.Some? ==> forall i :: 0 <= i < |sends| && sends[i].key == record.pending.value.key ==>
      sends[i].request == record.pending.value.request && sends[i].run == RunIdOf(record)
  }

  /** Every transmission of a key was answered by a complete 401 or 403. */
  ghost predicate AllDenied(sends: seq<Sent>, key: Key) {
    forall i :: 0 <= i < |sends| && sends[i].key == key ==>
      sends[i].fate.Refused? && (sends[i].rejection == Some(401) || sends[i].rejection == Some(403))
  }

  /** A prepared command was never sent, and a reopening marked impossible was denied every time. */
  ghost predicate Evidence(record: Record, sends: seq<Sent>) {
    && (record.pending.Some? && record.pending.value.phase.Prepared? ==>
         NeverSent(sends, record.pending.value.key) && record.pending.value.operationId.None?)
    && (record.pending.Some? && record.stage.ReopenStage? && !record.possible ==> AllDenied(sends, record.pending.value.key))
  }

  /**
   An accepted command is still pending under the same key, or its outcome is in the record, or it was
   dropped blindly. The reopening of a checkpoint never is, and nothing of the workflow follows a blind drop.
   */
  ghost predicate NothingForgotten(record: Record, sends: seq<Sent>) {
    && (forall i :: 0 <= i < |sends| && sends[i].fate.Accepted? ==>
         || sends[i].key in record.history.settled
         || (record.pending.Some? && record.pending.value.key == sends[i].key)
         || (sends[i].key in record.history.blind && !(sends[i].request.OpenRun? && sends[i].run.Some?)))
    && (record.history.blind != {} ==> record.stage in {AbortStage, DoneStage})
  }

  ghost predicate GivenUp(record: Record, sends: seq<Sent>, next: Key) {
    record.abandoned.Some? ==>
      && record.abandoned.value.command.key < next && AllDenied(sends, record.abandoned.value.command.key)
      && (record.pending.Some? ==> record.pending.value.key != record.abandoned.value.command.key)
  }

  function NextStep(record: Record): Step {
    var run := RunIdOf(record);
    match record.stage
    case CreateStage => Step(run, 0, 0)
    case OpenStage | ReopenStage => Step(run, 9, 0)
    case HydrateStage | ReadyStage | HeartbeatStage | CaptureStage | SubmissionStage => Step(run, 1, 0)
    case UploadStage => Step(run, 2, record.uploadIndex)
    case SealStage => Step(run, 3, 0)
    case FinalizeStage => Step(run, 4, 0)
    case AbortStage | DoneStage => Step(run, 10, 0)
  }

  ghost predicate Behind(record: Record, sends: seq<Sent>) {
    forall i :: 0 <= i < |sends| && sends[i].fate.Accepted? && IsStep(sends[i].request) ==>
      || (record.pending.Some? && record.pending.value.key == sends[i].key)
      || Earlier(StepOf(sends[i].request, sends[i].run), NextStep(record))
  }

  ghost predicate Described(record: Record, sends: seq<Sent>) {
    && (forall i :: 0 <= i < |sends| ==> Describes(record.history, sends[i].request))
    && (record.pending.Some? ==> Describes(record.history, record.pending.value.request))
  }

  /** What has not been sent yet for the held run. */
  ghost predicate Unsent(record: Record, sends: seq<Sent>) {
    && (record.stage.UploadStage? ==>
         forall i :: 0 <= i < |sends| && sends[i].request.SealSubmission? ==> sends[i].run != RunIdOf(record))
    && (record.stage in {HydrateStage, ReadyStage, HeartbeatStage, CaptureStage} ==>
         forall i :: 0 <= i < |sends| && PublicationRequest(sends[i].request) ==> sends[i].run != RunIdOf(record))
    && (record.stage.SubmissionStage? ==>
         forall i :: 0 <= i < |sends| && Publishes(sends[i].request) ==> sends[i].run != RunIdOf(record))
  }

  /** What the record holds is what the run publishes. */
  predicate Bound(record: Record) {
    && (record.stage in {SubmissionStage, UploadStage, SealStage} && record.run.Some? && record.capture.Some? ==>
         HasCapture(record.history, record.run.value.id, record.capture.value))
    && (record.stage in {UploadStage, SealStage} && record.run.Some? && record.submission.Some? ==>
         HasSubmission(record.history, record.run.value.id, record.submission.value))
    && (record.stage.FinalizeStage? && record.mode.ReadWrite? && record.run.Some? && record.submission.Some? ==>
         record.run.value.id in record.history.captureOf && HasSubmission(record.history, record.run.value.id, record.submission.value))
  }

  ghost predicate OneCapture(record: Record, sends: seq<Sent>) {
    Described(record, sends) && Unsent(record, sends) && Bound(record) && Collected(record)
  }

  /** The receipts in the record are those read for the files before the upload index, in order. */
  ghost predicate Collected(record: Record) {
    && (record.stage in {ReadyStage, HeartbeatStage, CaptureStage, SubmissionStage} ==> record.receipts == [] && record.uploadIndex == 0)
    && (record.stage in {UploadStage, SealStage} && record.run.Some? && record.capture.Some? ==>
         var manifest := record.capture.value.manifest;
         && HasReceipts(record.history, record.run.value.id, record.receipts)
         && (record.stage.UploadStage? ==> record.uploadIndex <= |manifest| && ReceiptsFor(record.receipts, manifest, record.uploadIndex))
         && (record.stage.SealStage? ==> SealsFiles(manifest, record.receipts)))
  }

  ghost predicate AbortFinal(record: Record, sends: seq<Sent>) {
    && (record.stage.AbortStage? ==> record.history.abortFrom.Some?)
    && (record.history.abortFrom.Some? ==>
         && record.stage in {AbortStage, DoneStage}
         && record.history.abortFrom.value <= |sends| && NoPublicationFrom(sends, record.history.abortFrom.value))
  }

  /** What is published, and when. */
  ghost predicate Orderly(record: Record, sends: seq<Sent>) {
    Behind(record, sends) && AtMostOnce(sends) && OneCapture(record, sends) && AbortFinal(record, sends)
  }

  ghost predicate Good(record: Record, sends: seq<Sent>, next: Key) {
    && Coherent(record) && KeysKnown(record, sends, next) && SameRequest(record, sends) && Evidence(record, sends)
    && NothingForgotten(record, sends) && GivenUp(record, sends, next) && Orderly(record, sends)
  }

  // ---------------------------------------------------------------- preparing and sending

  lemma PrepareKeeps(record: Record, sends: seq<Sent>, next: Key, request: Request)
    requires Good(record, sends, next) && record.pending.None?
    requires Coherent(Prepare(record, next, request)) && Describes(record.history, request)
    ensures Good(Prepare(record, next, request), sends, next + 1)
  {
    assert NextStep(Prepare(record, next, request)) == NextStep(record);
  }

  lemma BeginKeeps(record: Record, sends: seq<Sent>, next: Key)
    requires Good(record, sends, next) && record.pending.Some?
    ensures Good(Begin(record), sends, next)
  {
    assert NextStep(Begin(record)) == NextStep(record);
  }

  /** The state in which a command is on the wire: dispatched, and for a reopening, possibly accepted. */
  predicate OnTheWire(record: Record) {
    record.pending.Some? && record.pending.value.phase.Dispatched? && (record.stage.ReopenStage? ==> record.possible && record.proof.None?)
  }

  lemma TransmitKeeps(record: Record, sends: seq<Sent>, next: Key, sent: Sent)
    requires Good(record, sends, next) && OnTheWire(record)
    requires sent.key == record.pending.value.key && sent.request == record.pending.value.request && sent.run == RunIdOf(record)
    ensures Good(record, sends + [sent], next)
  {
    TransmitOrderly(record, sends, next, sent);
  }

  lemma TransmitOrderly(record: Record, sends: seq<Sent>, next: Key, sent: Sent)
    requires Good(record, sends, next) && OnTheWire(record)
    requires sent.key == record.pending.value.key && sent.request == record.pending.value.request && sent.run == RunIdOf(record)
    ensures Orderly(record, sends + [sent])
  {
    var all := sends + [sent];
    forall i, j | 0 <= i < |all| && 0 <= j < |all| ensures SameKeyIfSameStep(all[i], all[j]) {
      if i < |sends| && j < |sends| { assert SameKeyIfSameStep(sends[i], sends[j]); }
    }
  }

  // ---------------------------------------------------------------- what replies prove

  /** The status of the exception class a response becomes (`Client::error`). */
  function ClassStatus(httpStatus: int, code: Code): int {
    if httpStatus in {401, 403, 404, 410} || code.RunExpired? then httpStatus
    else if code.RevisionConflict? then 409
    else httpStatus
  }

  /** What a transmission can throw: any response the server may send, or a failure of the client's own. */
  predicate ThrownByTransport(failure: Failure) {
    && !failure.operationFailed
    && failure.status == (if failure.httpStatus == 0 then 0 else ClassStatus(failure.httpStatus, failure.code))
    && (failure.httpStatus == 0 ==> failure.operationId.None? && !failure.code.InvalidTransition?)
  }

  /** The pending command changed its standing only. */
  predicate Kept(record: Record, after: Record) {
    && record.pending.Some? && after.pending.Some?
    && after.pending.value.key == record.pending.value.key && after.pending.value.request == record.pending.value.request
    && after == record.(pending := after.pending, recovery := after.recovery, possible := after.possible, proof := after.proof)
  }

  lemma RetainKeeps(record: Record, after: Record, sends: seq<Sent>, next: Key)
    requires Good(record, sends, next) && Kept(record, after) && Evidence(after, sends)
    ensures Good(after, sends, next)
  {
    assert NextStep(after) == NextStep(record);
    assert OneCapture(after, sends);
  }

  predicate Dropped(record: Record, after: Record) {
    after.stage.DoneStage? && after.pending.None?
    && after == record.(pending := None, action := after.action, stage := DoneStage, recovery := after.recovery, history := after.history)
  }

  lemma DropKeeps(record: Record, after: Record, sends: seq<Sent>, next: Key)
    requires Good(record, sends, next) && record.pending.Some? && Dropped(record, after)
    requires
      || after.history == record.history.(settled := record.history.settled + {record.pending.value.key})
      || (after.history == record.history && AllRefused(sends, record.pending.value.key))
      || (after.history == record.history.(blind := record.history.blind + {record.pending.value.key}) && !record.stage.ReopenStage?)
    ensures Good(after, sends, next)
  {
    assert record.pending.value.request.OpenRun? && !record.stage.ReopenStage? ==> record.run.None?;
    assert NothingForgotten(after, sends);
    assert NextStep(after).rank == 10;
    assert Behind(after, sends);
    forall i | 0 <= i < |sends| ensures Describes(after.history, sends[i].request) { assert Describes(record.history, sends[i].request); }
  }

  /** The reopening's handler keeps the command; it forgets the possibility of acceptance only on a 401 or 403. */
  lemma FailReopeningKeeps(record: Record, sends: seq<Sent>, next: Key, prior: bool, reading: bool, failure: Failure)
    requires Good(record, sends, next) && OnTheWire(record) && record.stage.ReopenStage?
    requires !prior && !reading && failure.operationId.None? && RefusesReopening(failure) ==> AllDenied(sends, record.pending.value.key)
    ensures Good(FailReopening(record, prior, reading, failure), sends, next)
  {
    RetainKeeps(record, FailReopening(record, prior, reading, failure), sends, next);
  }

  lemma FailCommandKeeps(record: Record, sends: seq<Sent>, next: Key, uncertain: bool, reading: bool, failure: Failure, expired: bool)
    requires Good(record, sends, next) && OnTheWire(record) && !record.stage.ReopenStage?
    requires !reading ==> ThrownByTransport(failure)
    requires !uncertain && !reading && CleanRejection(record.pending.value.request, failure) ==> AllRefused(sends, record.pending.value.key)
    ensures Good(FailCommand(record, uncertain, reading, failure, expired), sends, next)
  {
    var after := FailCommand(record, uncertain, reading, failure, expired);
    if after.pending.Some? {
      RetainKeeps(record, after, sends, next);
    } else {
      DropKeeps(record, after, sends, next);
    }
  }

  // ---------------------------------------------------------------- accepting

  lemma AcceptAdvances(record: Record, value: Value)
    requires Coherent(record) && record.pending.Some? && Answers(record.pending.value.request, record.pending.value.key, value)
    ensures var now, later := NextStep(record), NextStep(Accept(record, value));
      if record.pending.value.request.OpenRun? then later.run == Some(RunId(record.pending.value.key))
      else later == now || later.rank >= 9 || (later.run == now.run && Earlier(now, later))
    ensures var now, later := NextStep(record), NextStep(Accept(record, value));
      IsStep(record.pending.value.request) && !record.pending.value.request.OpenRun? ==> later.run == now.run && Earlier(now, later)
    ensures NextStep(Accept(record, value)).rank == 9 ==> NextStep(record).rank < 9
  {
  }

  lemma AcceptBehind(record: Record, sends: seq<Sent>, next: Key, value: Value)
    requires Good(record, sends, next) && record.pending.Some? && Answers(record.pending.value.request, record.pending.value.key, value)
    ensures Behind(Accept(record, value), sends)
  {
    AcceptAdvances(record, value);
    var now, later := NextStep(record), NextStep(Accept(record, value));
    var p := record.pending.value;
    forall i | 0 <= i < |sends| && sends[i].fate.Accepted? && IsStep(sends[i].request)
      ensures Earlier(StepOf(sends[i].request, sends[i].run), later)
    {
      var step := StepOf(sends[i].request, sends[i].run);
      if sends[i].key == p.key {
        assert sends[i].request == p.request && step == now;
      } else {
        assert Earlier(step, now);
      }
    }
  }

  lemma AcceptCoherent(record: Record, value: Value)
    requires Coherent(record) && record.pending.Some? && Answers(record.pending.value.request, record.pending.value.key, value)
    ensures Coherent(Accept(record, value)) && Accept(record, value).pending.None?
  {
  }

  lemma AcceptShape(record: Record, value: Value)
    requires Coherent(record) && record.pending.Some? && Answers(record.pending.value.request, record.pending.value.key, value)
    ensures var after := Accept(record, value);
      && Coherent(after) && after.pending.None? && after.abandoned == record.abandoned
      && after.history.settled == record.history.settled + {record.pending.value.key}
      && after.history.abortFrom == record.history.abortFrom
      && (after.run.Some? ==> RunIdOf(after) == RunIdOf(record) || after.run.value.id == RunId(record.pending.value.key))
      && (record.stage.AbortStage? <==> record.pending.value.request.AbortRun?)
      && (record.stage.AbortStage? ==> after.stage.DoneStage?) && !record.stage.DoneStage? && !after.stage.AbortStage?
  {
    AcceptCoherent(record, value);
  }

  lemma AcceptHistory(record: Record, value: Value)
    requires Coherent(record) && record.pending.Some? && Answers(record.pending.value.request, record.pending.value.key, value)
    ensures var before, after := record.history, Accept(record, value).history;
      && after.captureOf == before.captureOf && after.blind == before.blind
      && (if record.pending.value.request.CreateSubmission?
          then after.submissionOf == before.submissionOf[record.pending.value.request.run := value.submission]
          else after.submissionOf == before.submissionOf)
  {
  }

  lemma AcceptReceipts(record: Record, value: Value, run: RunId)
    requires record.pending.Some? && Answers(record.pending.value.request, record.pending.value.key, value)
    requires run in record.history.receiptsOf
    requires record.pending.value.request.CreateSubmission? || record.pending.value.request.UploadFile? ==>
      record.pending.value.request.run != run
    ensures var after := Accept(record, value).history;
      run in after.receiptsOf && after.receiptsOf[run] == record.history.receiptsOf[run]
  {
  }

  lemma AcceptDescribes(record: Record, sends: seq<Sent>, next: Key, value: Value, i: nat)
    requires Good(record, sends, next) && record.pending.Some? && i < |sends|
    requires Answers(record.pending.value.request, record.pending.value.key, value)
    ensures Describes(Accept(record, value).history, sends[i].request)
  {
    AcceptHistory(record, value);
    assert Describes(record.history, sends[i].request);
    if sends[i].request.SealSubmission? {
      assert RequestRun(sends[i].request) == sends[i].run;
      assert record.stage in {SubmissionStage, UploadStage} ==> sends[i].run != RunIdOf(record);
      AcceptReceipts(record, value, sends[i].request.run);
    }
    if record.pending.value.request.CreateSubmission? && Publishes(sends[i].request) {
      assert record.stage.SubmissionStage? && sends[i].run != RunIdOf(record);
    }
  }

  /** A run just opened has published nothing yet. */
  lemma OpenedFresh(record: Record, sends: seq<Sent>, next: Key, value: Value)
    requires Good(record, sends, next) && record.pending.Some? && record.pending.value.request.OpenRun?
    requires Answers(record.pending.value.request, record.pending.value.key, value) && Collected(Accept(record, value))
    ensures OneCapture(Accept(record, value), sends)
  {
    var after := Accept(record, value);
    assert after.stage.HydrateStage? && after.pending.None?;
    forall i | 0 <= i < |sends| ensures sends[i].run != RunIdOf(after) { assert record.pending.value.key !in record.history.settled; }
    forall i | 0 <= i < |sends| ensures Describes(after.history, sends[i].request) { AcceptDescribes(record, sends, next, value, i); }
  }

  /** A submission starts without receipts, and an upload adds the receipt of the next file. */
  lemma AcceptCollected(record: Record, value: Value)
    requires Coherent(record) && Bound(record) && Collected(record) && record.pending.Some?
    requires Describes(record.history, record.pending.value.request)
    requires Answers(record.pending.value.request, record.pending.value.key, value)
    ensures Collected(Accept(record, value))
  {
    var p := record.pending.value;
    if p.request.CreateSubmission? {
      ReceiptsStart(record.capture.value.manifest);
    } else if p.request.UploadFile? {
      assert record.capture.value == record.history.captureOf[p.request.run];
      UploadCollected(record, value);
    }
  }

  lemma UploadCollected(record: Record, value: Value)
    requires Coherent(record) && Collected(record) && record.pending.Some? && record.pending.value.request.UploadFile?
    requires Answers(record.pending.value.request, record.pending.value.key, value)
    requires var manifest := record.capture.value.manifest;
      record.uploadIndex < |manifest| && manifest[record.uploadIndex].File? && record.pending.value.request.entry == manifest[record.uploadIndex]
    ensures Collected(Accept(record, value))
  {
    var after := Accept(record, value);
    ReceiptsAdd(record.receipts, record.capture.value.manifest, record.uploadIndex, value.receipt);
    assert HasReceipts(after.history, record.pending.value.request.run, after.receipts);
  }

  lemma AcceptUnsent(record: Record, sends: seq<Sent>, value: Value)
    requires Coherent(record) && Unsent(record, sends) && record.pending.Some? && !record.pending.value.request.OpenRun?
    requires Answers(record.pending.value.request, record.pending.value.key, value)
    ensures Unsent(Accept(record, value), sends)
  {
    assert RunIdOf(Accept(record, value)) == RunIdOf(record);
  }

  lemma AcceptBound(record: Record, value: Value)
    requires Coherent(record) && Bound(record) && record.pending.Some? && Describes(record.history, record.pending.value.request)
    requires Answers(record.pending.value.request, record.pending.value.key, value) && !record.pending.value.request.OpenRun?
    ensures Bound(Accept(record, value))
  {
  }

  lemma AcceptCapture(record: Record, sends: seq<Sent>, next: Key, value: Value)
    requires Good(record, sends, next) && record.pending.Some? && Answers(record.pending.value.request, record.pending.value.key, value)
    ensures OneCapture(Accept(record, value), sends)
  {
    AcceptCollected(record, value);
    if record.pending.value.request.OpenRun? {
      OpenedFresh(record, sends, next, value);
    } else {
      forall i | 0 <= i < |sends| ensures Describes(Accept(record, value).history, sends[i].request) {
        AcceptDescribes(record, sends, next, value, i);
      }
      AcceptUnsent(record, sends, value);
      AcceptBound(record, value);
      AcceptShape(record, value);
    }
  }

  lemma AcceptKeeps(record: Record, sends: seq<Sent>, next: Key, value: Value)
    requires Good(record, sends, next) && record.pending.Some? && Answers(record.pending.value.request, record.pending.value.key, value)
    ensures Good(Accept(record, value), sends, next)
  {
    AcceptOrderly(record, sends, next, value);
    AcceptShape(record, value);
    AcceptHistory(record, value);
    assert NothingForgotten(Accept(record, value), sends);
  }

  lemma AcceptOrderly(record: Record, sends: seq<Sent>, next: Key, value: Value)
    requires Good(record, sends, next) && record.pending.Some? && Answers(record.pending.value.request, record.pending.value.key, value)
    ensures Orderly(Accept(record, value), sends)
  {
    AcceptBehind(record, sends, next, value);
    AcceptCapture(record, sends, next, value);
    AcceptShape(record, value);
  }

  // ---------------------------------------------------------------- the other saves

  /** Saves that move no command: the run's identity stays and no step is taken back. */
  lemma MoveKeeps(record: Record, after: Record, sends: seq<Sent>, next: Key)
    requires Good(record, sends, next) && record.pending.None? && Coherent(after) && after.pending.None?
    requires after == record.(run := after.run, action := after.action, stage := after.stage, recovery := after.recovery,
                              capture := after.capture, submission := after.submission, receipts := after.receipts, uploadIndex := after.uploadIndex)
    requires RunIdOf(after) == RunIdOf(record)
    requires NextStep(after) == NextStep(record) || Earlier(NextStep(record), NextStep(after))
    requires
      || (record.stage in {HydrateStage, ReadyStage, HeartbeatStage, CaptureStage} && after.stage in {HydrateStage, ReadyStage, HeartbeatStage, CaptureStage})
      || (after.stage == record.stage && after.capture == record.capture && after.submission == record.submission)
      || (record.stage.UploadStage? && after.stage.SealStage? && after.capture == record.capture && after.submission == record.submission)
      || (record.stage.CaptureStage? && after.stage.FinalizeStage? && after.mode.ReadOnly?)
    requires Collected(after)
    ensures Good(after, sends, next)
  {
    assert Behind(after, sends);
    assert OneCapture(after, sends);
  }

  lemma CapturedKeeps(record: Record, sends: seq<Sent>, next: Key, capture: Capture)
    requires Good(record, sends, next) && record.pending.None? && record.stage.CaptureStage?
    ensures Good(Captured(record, capture), sends, next)
  {
    var after := Captured(record, capture);
    forall i | 0 <= i < |sends| ensures Describes(after.history, sends[i].request) { assert Describes(record.history, sends[i].request); }
    assert NextStep(after) == NextStep(record);
    assert Behind(after, sends);
  }

  lemma FinishingKeeps(record: Record, sends: seq<Sent>, next: Key, action: Action)
    requires Good(record, sends, next) && record.pending.None? && record.stage.ReadyStage?
    ensures Good(Finishing(record, action), sends, next)
  {
    var after := Finishing(record, action);
    forall i | 0 <= i < |sends| ensures Describes(after.history, sends[i].request) { assert Describes(record.history, sends[i].request); }
    assert NextStep(after) == NextStep(record);
    assert Behind(after, sends);
  }

  lemma AbortingKeeps(record: Record, sends: seq<Sent>, next: Key, run: Run)
    requires Good(record, sends, next) && (record.pending.None? || record.stage.AbortStage?)
    requires record.run.Some? && run.id == record.run.value.id
    ensures Good(Aborting(record, run, |sends|), sends, next)
  {
    var after := Aborting(record, run, |sends|);
    assert NextStep(after).rank == 10 && after.history.settled == record.history.settled;
    assert Behind(after, sends);
    forall i | 0 <= i < |sends| ensures Describes(after.history, sends[i].request) { assert Describes(record.history, sends[i].request); }
  }

  lemma AbandonKeeps(record: Record, sends: seq<Sent>, next: Key)
    requires Good(record, sends, next) && MayAbandon(record)
    ensures Good(Abandon(record), sends, next)
  {
    var after := Abandon(record);
    assert NothingForgotten(after, sends);
    assert NextStep(after).rank == 10;
    assert Behind(after, sends);
    assert OneCapture(after, sends);
  }

  // ---------------------------------------------------------------- what a good record guarantees

  /** Abandoning the reopening of a published checkpoint never orphans a run: the server accepted none of its transmissions. */
  lemma AbandonedReopenOpenedNothing(record: Record, sends: seq<Sent>, next: Key, i: nat)
    requires Good(record, sends, next) && i < |sends| && sends[i].request.OpenRun? && sends[i].fate.Accepted?
    ensures sends[i].run.Some? ==>
      sends[i].key in record.history.settled || (record.pending.Some? && record.pending.value.key == sends[i].key)
    ensures record.abandoned.Some? ==> record.abandoned.value.command.key != sends[i].key
    ensures MayAbandon(record) ==> record.pending.value.key != sends[i].key
  {
    if record.abandoned.Some? { assert AllDenied(sends, record.abandoned.value.command.key); }
  }

  lemma OneCapturePerRun(record: Record, sends: seq<Sent>, next: Key)
    requires Good(record, sends, next)
    ensures forall i, j :: 0 <= i < |sends| && 0 <= j < |sends| && sends[i].run == sends[j].run ==>
      SamePublication(sends[i].request, sends[j].request)
  {
    forall i, j | 0 <= i < |sends| && 0 <= j < |sends| && sends[i].run == sends[j].run
      ensures SamePublication(sends[i].request, sends[j].request)
    {
      assert Describes(record.history, sends[i].request) && Describes(record.history, sends[j].request);
      assert RequestRun(sends[i].request).Some? ==> RequestRun(sends[i].request) == sends[i].run;
    }
  }

  // ---------------------------------------------------------------- what the record forgets

  /** The command is gone although neither its operation's outcome nor a clean rejection is known. */
  predicate DroppedBlindly(record: Record, uncertain: bool, reading: bool, failure: Failure, expired: bool)
    requires record.pending.Some?
  {
    && FailCommand(record, uncertain, reading, failure, expired).pending.None?
    && !failure.operationFailed
    && !CleanRejection(record.pending.value.request, failure)
  }

  /** The 4xx or expired run the handler acts on does not decide the command. */
  predicate Undecided(record: Record, failure: Failure, expired: bool)
    requires record.pending.Some?
  {
    if failure.code.InvalidTransition? && record.run.Some? && expired then
      failure.operationId.Some? || !ClientError(failure.httpStatus)
    else
      && KnownRejection(failure)
      && (|| failure.operationId.Some? || !ClientError(failure.httpStatus)
          || LeavesOpen(record.pending.value.request, failure.httpStatus, failure.code))
  }

  /**
   For any failure of the transport, a command is dropped blindly exactly when it was never sent before,
   no operation is being read, and the handler takes an undecided response for a rejection: a 4xx that
   names an operation, an error that leaves a creation open, a REVISION_CONFLICT that is no 4xx, or an
   INVALID_TRANSITION that is no 4xx or names an operation while the run turns out to be expired.
   */
  lemma BlindDropExactly(record: Record, uncertain: bool, reading: bool, failure: Failure, expired: bool)
    requires record.pending.Some? && ThrownByTransport(failure)
    ensures DroppedBlindly(record, uncertain, reading, failure, expired) <==>
      !uncertain && !reading && Undecided(record, failure, expired)
  {
  }

  /** The mark in the history is made exactly then, whether the transport or the wait for an operation failed. */
  lemma BlindExactly(record: Record, uncertain: bool, reading: bool, failure: Failure, expired: bool)
    requires record.pending.Some? && (!reading ==> ThrownByTransport(failure)) && record.pending.value.key !in record.history.blind
    ensures record.pending.value.key in FailCommand(record, uncertain, reading, failure, expired).history.blind <==>
      DroppedBlindly(record, uncertain, reading, failure, expired)
  {
  }
}
