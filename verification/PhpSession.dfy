/**
 `WorkspaceSession` of the PHP client: its public operations and the stage loop of `drive`, run
 against a process that can die before or after any save and a transport that can lose any response.
 */
module PhpSession {
  import opened Exchange
  import opened PhpGrounds
  import opened PhpInvariant
  import opened PhpJournal
  import opened Prelude
  import opened Protocol

  /** What one transmission did at the server and what came back for it. */
  predicate Observes(request: Request, key: Key, fate: Fate, reply: Reply) {
    match reply
    case Answered(value) => fate.Accepted? && (Answers(request, key, value) || (Durable(request) && value.OperationStarted?))
    case Threw(failure) => ThrownByTransport(failure) && (CleanRejection(request, failure) ==> fate.Refused?)
  }

  const ResponseLost := Failure(0, OtherCode, 0, None, false)

  // ---------------------------------------------------------------- what the record forgets

  /** An accepted command after whose answer the record is good, and knows the key neither as pending nor as settled. */
  ghost predicate Forgets(before: Record, sends: seq<Sent>, next: Key, failure: Failure, after: Record)
    requires before.pending.Some?
  {
    var p := before.pending.value;
    && Observes(p.request, p.key, Accepted, Threw(failure))
    && Good(after, sends + [Send(p.key, p.request, RunIdOf(before), Accepted, None)], next)
    && after.pending.None? && p.key !in after.history.settled && p.key in after.history.blind
  }

  /** Whatever drops a command blindly may drop an accepted one. */
  lemma BlindDropForgets(record: Record, sends: seq<Sent>, next: Key, failure: Failure, expired: bool)
    requires Good(record, sends, next) && OnTheWire(record) && !record.stage.ReopenStage? && ThrownByTransport(failure)
    requires DroppedBlindly(record, false, false, failure, expired)
    ensures Forgets(record, sends, next, failure, FailCommand(record, false, false, failure, expired))
  {
    var p := record.pending.value;
    var sent := Send(p.key, p.request, RunIdOf(record), Accepted, None);
    TransmitKeeps(record, sends, next, sent);
    FailCommandKeeps(record, sends + [sent], next, false, false, failure, expired);
    BlindExactly(record, false, false, failure, expired);
  }

  /** A creation whose processing went stale is dropped on its first response, although a newer fence may accept it. */
  lemma StaleCreationForgotten(record: Record, sends: seq<Sent>, next: Key, operation: OperationId, expired: bool)
    requires Good(record, sends, next) && OnTheWire(record) && record.pending.value.request.CreateWorkspace?
    ensures var failure := Failure(409, StaleFence, 409, Some(operation), false);
      Forgets(record, sends, next, failure, FailCommand(record, false, false, failure, expired))
  {
    var failure := Failure(409, StaleFence, 409, Some(operation), false);
    BlindDropExactly(record, false, false, failure, expired);
    BlindDropForgets(record, sends, next, failure, expired);
  }

  // ---------------------------------------------------------------- the measure of the stage loop

  function StageRank(stage: Stage): nat {
    match stage
    case CreateStage => 13
    case OpenStage => 12
    case CaptureStage => 11
    case SubmissionStage => 10
    case UploadStage => 9
    case SealStage => 8
    case FinalizeStage => 7
    case ReopenStage => 6
    case HydrateStage => 5
    case HeartbeatStage => 4
    case AbortStage => 3
    case ReadyStage => 1
    case DoneStage => 0
  }

  function EntriesLeft(record: Record): nat {
    if record.stage.UploadStage? && record.capture.Some? && record.uploadIndex < |record.capture.value.manifest|
    then |record.capture.value.manifest| - record.uploadIndex else 0
  }

  predicate Descends(before: Record, after: Record) {
    || StageRank(after.stage) < StageRank(before.stage)
    || (StageRank(after.stage) == StageRank(before.stage) && EntriesLeft(after) < EntriesLeft(before))
  }

  /** The first file at or after an index. */
  function NextFile(entries: seq<Entry>, index: nat): (k: nat)
    ensures index <= k && (index <= |entries| ==> k <= |entries|)
    ensures k < |entries| ==> entries[k].File?
    decreases |entries| - index
  {
    if index < |entries| && !entries[index].File? then NextFile(entries, index + 1) else index
  }

  lemma {:induction false} SkipsDirectories(receipts: seq<Receipt>, entries: seq<Entry>, index: nat)
    requires index <= |entries| && ReceiptsFor(receipts, entries, index)
    ensures ReceiptsFor(receipts, entries, NextFile(entries, index))
    decreases |entries| - index
  {
    if index < |entries| && !entries[index].File? {
      ReceiptsSkip(receipts, entries, index);
      SkipsDirectories(receipts, entries, index + 1);
    }
  }

  /** The same turn of the loop: stage, capture and index are untouched. */
  predicate SameTurn(before: Record, after: Record) {
    && after.stage == before.stage && after.capture == before.capture && after.uploadIndex == before.uploadIndex
    && after.receipts == before.receipts && after.run == before.run && after.submission == before.submission
  }

  /** Whatever was sent meanwhile carried this request. */
  ghost predicate Only(before: seq<Sent>, after: seq<Sent>, request: Request) {
    before <= after && forall i :: |before| <= i < |after| ==> after[i].request == request
  }

  /** An accepted upload is recorded with the receipt of its file. */
  predicate Uploaded(before: Record, after: Record, entry: Entry) {
    && after.stage.UploadStage? && after.uploadIndex == before.uploadIndex + 1
    && |after.receipts| == |before.receipts| + 1 && after.receipts[..|before.receipts|] == before.receipts
    && after.receipts[|before.receipts|].path == entry.path
  }

  lemma UploadAccepted(before: Record, value: Value)
    requires before.pending.Some? && Answers(before.pending.value.request, before.pending.value.key, value)
    requires before.pending.value.request.UploadFile?
    ensures Uploaded(before, Accept(before, value), before.pending.value.request.entry)
  {
    assert (before.receipts + [value.receipt])[..|before.receipts|] == before.receipts;
  }

  lemma AcceptDescends(before: Record, value: Value)
    requires Coherent(before) && before.pending.Some? && Answers(before.pending.value.request, before.pending.value.key, value)
    requires before.stage.UploadStage? && before.capture.Some? ==> before.uploadIndex < |before.capture.value.manifest|
    ensures Descends(before, Accept(before, value))
  {
  }

  // ---------------------------------------------------------------- what one more transmission adds to the evidence

  lemma RefusedOnce(sends: seq<Sent>, sent: Sent)
    requires NeverSent(sends, sent.key) && sent.fate.Refused? && sent.rejection.Some? && ClientError(sent.rejection.value)
    ensures AllRefused(sends + [sent], sent.key)
  {
  }

  lemma DeniedAgain(sends: seq<Sent>, sent: Sent)
    requires AllDenied(sends, sent.key) && sent.fate.Refused? && (sent.rejection == Some(401) || sent.rejection == Some(403))
    ensures AllDenied(sends + [sent], sent.key)
  {
  }

  lemma GoodLater(record: Record, sends: seq<Sent>, next: Key)
    requires Good(record, sends, next)
    ensures Good(record, sends, next + 1)
  {
  }

  // ---------------------------------------------------------------- sound records

  /** A record that may be on disk: it keeps every invariant, and invents nothing. */
  ghost predicate Sound(record: Record, sends: seq<Sent>, next: Key, told: set<Answer>, given: Option<nat>) {
    Good(record, sends, next) && Grounded(record, sends, told, given)
  }

  lemma PrepareSound(record: Record, sends: seq<Sent>, next: Key, told: set<Answer>, given: Option<nat>, request: Request)
    requires Sound(record, sends, next, told, given) && record.pending.None?
    requires Coherent(Prepare(record, next, request)) && Describes(record.history, request) && Current(record, request)
    requires request.FinalizeRun? ==> (request.selected.Some? <==> record.mode.ReadWrite?)
    ensures Sound(Prepare(record, next, request), sends, next + 1, told, given)
  {
    PrepareKeeps(record, sends, next, request);
    CurrentPurposeful(record, sends, told, request);
    PrepareGrounded(record, sends, told, given, next, request);
  }

  lemma BeginSound(record: Record, sends: seq<Sent>, next: Key, told: set<Answer>, given: Option<nat>)
    requires Sound(record, sends, next, told, given) && record.pending.Some?
    ensures Sound(Begin(record), sends, next, told, given)
  {
    BeginKeeps(record, sends, next);
    KeptGrounded(record, Begin(record), sends, told, given);
  }

  lemma TransmitSound(record: Record, sends: seq<Sent>, next: Key, told: set<Answer>, given: Option<nat>, sent: Sent)
    requires Sound(record, sends, next, told, given) && OnTheWire(record)
    requires sent.key == record.pending.value.key && sent.request == record.pending.value.request && sent.run == RunIdOf(record)
    ensures Sound(record, sends + [sent], next, told, given)
  {
    TransmitKeeps(record, sends, next, sent);
    TransmitGrounded(record, sends, told, given, sent);
  }

  lemma SoundLater(record: Record, sends: seq<Sent>, next: Key, told: set<Answer>, given: Option<nat>)
    requires Sound(record, sends, next, told, given)
    ensures Sound(record, sends, next + 1, told, given)
  {
  }

  lemma NotedSound(record: Record, sends: seq<Sent>, next: Key, told: set<Answer>, given: Option<nat>, operation: OperationId)
    requires Sound(record, sends, next, told, given) && OnTheWire(record)
    ensures Sound(WithOperation(record, Some(operation)), sends, next, told, given)
  {
    RetainKeeps(record, WithOperation(record, Some(operation)), sends, next);
    KeptGrounded(record, WithOperation(record, Some(operation)), sends, told, given);
  }

  lemma AcceptSound(record: Record, sends: seq<Sent>, next: Key, told: set<Answer>, given: Option<nat>, value: Value)
    requires Sound(record, sends, next, told, given) && record.pending.Some?
    requires Answers(record.pending.value.request, record.pending.value.key, value) && Answer(record.pending.value.request, value) in told
    ensures Sound(Accept(record, value), sends, next, told, given)
  {
    AcceptKeeps(record, sends, next, value);
    AcceptGrounded(record, sends, next, told, given, value);
  }

  /** A save that moves no command. */
  lemma MoveSound(record: Record, after: Record, sends: seq<Sent>, next: Key, told: set<Answer>, given: Option<nat>)
    requires Sound(record, sends, next, told, given) && record.pending.None? && Coherent(after) && after.pending.None?
    requires after == record.(action := after.action, stage := after.stage, recovery := after.recovery,
                              capture := after.capture, submission := after.submission, receipts := after.receipts, uploadIndex := after.uploadIndex)
    requires after.submission == record.submission || after.submission.None?
    requires after.receipts == record.receipts || after.receipts == []
    requires NextStep(after) == NextStep(record) || Earlier(NextStep(record), NextStep(after))
    requires
      || (record.stage in {HydrateStage, ReadyStage, HeartbeatStage} && after.stage in {HydrateStage, ReadyStage, HeartbeatStage})
      || (after.action == record.action && Later(record, after) && after.capture == record.capture && after.submission == record.submission)
    requires !(after.recovery in {WasFinalized, WasAborted}) && OwnAction(after) && Collected(after)
    requires !(after.stage in {ReopenStage, DoneStage})
    ensures Sound(after, sends, next, told, given)
  {
    MoveKeeps(record, after, sends, next);
    MovedGrounded(record, after, sends, told, given);
  }

  lemma FailReopeningSound(record: Record, sends: seq<Sent>, next: Key, told: set<Answer>, given: Option<nat>,
                           prior: bool, reading: bool, failure: Failure)
    requires Sound(record, sends, next, told, given) && OnTheWire(record) && record.stage.ReopenStage?
    requires !prior && !reading && failure.operationId.None? && RefusesReopening(failure) ==> AllDenied(sends, record.pending.value.key)
    ensures Sound(FailReopening(record, prior, reading, failure), sends, next, told, given)
  {
    FailReopeningKeeps(record, sends, next, prior, reading, failure);
    KeptGrounded(record, FailReopening(record, prior, reading, failure), sends, told, given);
  }

  lemma FailCommandSound(record: Record, sends: seq<Sent>, next: Key, told: set<Answer>, given: Option<nat>,
                         uncertain: bool, reading: bool, failure: Failure, expired: bool)
    requires Sound(record, sends, next, told, given) && OnTheWire(record) && !record.stage.ReopenStage?
    requires !reading ==> ThrownByTransport(failure)
    requires !uncertain && !reading && CleanRejection(record.pending.value.request, failure) ==> AllRefused(sends, record.pending.value.key)
    ensures Sound(FailCommand(record, uncertain, reading, failure, expired), sends, next, told, given)
  {
    FailCommandKeeps(record, sends, next, uncertain, reading, failure, expired);
    FailCommandGrounded(record, sends, told, given, uncertain, reading, failure, expired);
  }

  /** The record of the next upload. */
  lemma AtNextFile(record: Record, sends: seq<Sent>, next: Key, told: set<Answer>, given: Option<nat>, index: nat)
    requires Sound(record, sends, next, told, given) && record.stage.UploadStage? && record.run.Some? && record.submission.Some? && record.capture.Some?
    requires index < |record.capture.value.manifest| && record.capture.value.manifest[index].File?
    requires ReceiptsFor(record.receipts, record.capture.value.manifest, index) && record.uploadIndex <= index
    ensures var at := record.(uploadIndex := index);
      var request := UploadFile(at.run.value.id, at.submission.value, at.capture.value.id, index, at.capture.value.manifest[index]);
      && (record.pending.None? || index == record.uploadIndex ==> Sound(at, sends, next, told, given))
      && Sends(at, next, request)
  {
    var at := record.(uploadIndex := index);
    if record.pending.None? {
      MoveKeeps(record, at, sends, next);
      KeptGrounded(record, at, sends, told, given);
    } else if index == record.uploadIndex {
      assert at == record;
    }
  }

  // ---------------------------------------------------------------- what a dispatch that returns has done

  /** The answer is accepted, and the workflow has moved down. */
  ghost predicate Carried(before: Record, after: Record) {
    && before.pending.Some? && after.pending.None? && Descends(before, after) && StaysUnderway(before, after)
    && after.history.settled == before.history.settled + {before.pending.value.key}
    && (before.pending.value.request.UploadFile? ==> Uploaded(before, after, before.pending.value.request.entry))
  }

  /** The same for a command that was prepared first. */
  ghost predicate Performed(before: Record, request: Request, after: Record) {
    && after.pending.None? && Descends(before, after) && StaysUnderway(before, after)
    && (request.UploadFile? ==> Uploaded(before, after, request.entry))
  }

  lemma AcceptCarries(record: Record, sends: seq<Sent>, next: Key, value: Value)
    requires Good(record, sends, next) && record.pending.Some? && Answers(record.pending.value.request, record.pending.value.key, value)
    requires record.pending.value.request.FinalizeRun? ==> value.finalized
    ensures Carried(record, Accept(record, value))
  {
    assert Describes(record.history, record.pending.value.request);
    AcceptDescends(record, value);
    AcceptShape(record, value);
    if record.pending.value.request.UploadFile? { UploadAccepted(record, value); }
    forall goal | Underway(record, goal) ensures Underway(Accept(record, value), goal) { AcceptUnderway(record, value, goal); }
  }

  /** The commands that are answered with the run they are about. */
  predicate RunAnswered(request: Request) { request.RenewLease? || request.AbortRun? }

  /** A renewed lease and an aborted run are held as answered. */
  lemma AcceptView(record: Record, value: Value)
    requires record.pending.Some? && Answers(record.pending.value.request, record.pending.value.key, value)
    requires RunAnswered(record.pending.value.request)
    ensures value.RunView? && Accept(record, value).run == Some(value.run) && Accept(record, value).stage in {ReadyStage, DoneStage}
  {
  }

  /** The standing of the pending command and the evidence about a reopening play no part in it. */
  lemma CarriedFrom(before: Record, begun: Record, after: Record)
    requires before.pending.Some? && begun.pending.Some? && Carried(begun, after)
    requires begun.pending.value.key == before.pending.value.key && begun.pending.value.request == before.pending.value.request
    requires begun == before.(pending := begun.pending, proof := begun.proof, possible := begun.possible, attempts := begun.attempts)
    ensures Carried(before, after)
  {
    forall goal | Underway(before, goal) ensures Underway(after, goal) { assert Underway(begun, goal); }
  }

  lemma CarriedIsPerformed(before: Record, prepared: Record, after: Record, request: Request)
    requires prepared == before.(pending := prepared.pending) && prepared.pending.Some? && prepared.pending.value.request == request
    requires Carried(prepared, after)
    ensures Performed(before, request, after)
  {
    forall goal | Underway(before, goal) ensures Underway(after, goal) { assert Underway(prepared, goal); }
  }

  /**
   What a dispatch can leave on disk: the record as begun, possibly with an operation noted, or that record
   after one reply, judged by what was known of the command before.
   */
  predicate LeftAs(before: Record, operation: Option<OperationId>, reading: bool, reply: Reply, expired: bool, after: Record) {
    && before.pending.Some?
    && var begun := WithOperation(Begin(before), operation);
       || after == begun
       || (reply.Threw? && after == Fail(begun, !before.pending.value.phase.Prepared?, before.possible, reading, reply.failure, expired))
       || (reply.Answered? && Answers(begun.pending.value.request, begun.pending.value.key, reply.value) && after == Accept(begun, reply.value))
  }

  ghost predicate Staged(before: Record, after: Record) {
    exists operation, reading, reply, expired :: LeftAs(before, operation, reading, reply, expired, after)
  }

  /** A request that `prepare` may save for the record. */
  ghost predicate Sends(record: Record, next: Key, request: Request) {
    && Coherent(Prepare(record, next, request)) && Describes(record.history, request) && Current(record, request)
    && (request.FinalizeRun? ==> (request.selected.Some? <==> record.mode.ReadWrite?))
  }

  /** What an uploading record holds. */
  lemma Uploading(record: Record, sends: seq<Sent>, next: Key, told: set<Answer>, given: Option<nat>)
    requires Sound(record, sends, next, told, given) && record.stage.UploadStage?
    ensures record.run.Some? && record.submission.Some? && record.capture.Some? && record.uploadIndex <= |record.capture.value.manifest|
  {
  }

  lemma Aborts(record: Record, sends: seq<Sent>, next: Key, told: set<Answer>, given: Option<nat>)
    requires Sound(record, sends, next, told, given) && record.action == Some(AbortAction)
    ensures record.stage.AbortStage? && record.run.Some? && record.run.value.id.openedBy in record.history.settled
  {
  }

  /** The first attempt of a reopening that is denied may be abandoned. */
  lemma DeniedMayAbandon(record: Record, sends: seq<Sent>, next: Key, told: set<Answer>, given: Option<nat>, failure: Failure)
    requires Sound(record, sends, next, told, given) && record.stage.ReopenStage?
    requires record.pending.Some? && record.pending.value.phase.Prepared?
    requires RefusesReopening(failure) && failure.operationId.None?
    ensures MayAbandon(FailReopening(Begin(record), record.possible, false, failure))
  {
  }

  /** A ready or finished record has nothing pending. */
  lemma Rests(record: Record, sends: seq<Sent>, next: Key, told: set<Answer>, given: Option<nat>)
    requires Sound(record, sends, next, told, given) && record.stage in {ReadyStage, DoneStage}
    ensures record.pending.None?
  {
  }

  class WorkspaceSession {
    /** `$this->record`, as the running process holds it. */
    var record: Record
    /** `session.json`, as a restarted process would load it. */
    var durable: Record
    var nextKey: Key
    /** History variable: every transmission of any command, oldest first. */
    var sends: seq<Sent>
    /** History variable: everything the server answered that this client read. */
    ghost var told: set<Answer>
    /** History variable: the last view of a run that this client read. */
    ghost var view: Option<Run>
    /** The workspace the caller named, unless one is to be created. */
    const given: Option<nat>

    /** The record on disk is sound; the quantifier makes proofs look inside only where they ask for it. */
    ghost predicate Valid()
      reads this
    {
      forall saved :: saved == durable ==> Sound(saved, sends, nextKey, told, given)
    }

    constructor (create: bool, workspace: Option<nat>, mode: Mode)
      ensures Valid() && sends == [] && record == durable
    {
      var initial := Record(
        workspace, mode, None, None, Some(OpenAction), if create then CreateStage else OpenStage, Provisioning,
        None, [], None, 0, None, 0, false, None, None, NOTHING_YET);
      record, durable, nextKey, sends, told, view, given := initial, initial, 0, [], {}, None, workspace;
    }

    /** A renewal or an abort is over, and the run is held as the server answered it. */
    ghost predicate Answered()
      reads this
    {
      record.stage in {ReadyStage, DoneStage} && record.run == view
    }

    /** One atomic replacement, which the process may or may not survive. */
    method Save() returns (crashed: bool)
      modifies this`durable
      ensures durable == record || (crashed && durable == old(durable))
    {
      crashed := *;
      var replaced: bool := *;
      if !crashed || replaced { durable := record; }
    }

    /** The save of a sound record. */
    method Move(after: Record) returns (exit: Exit)
      requires Valid() && Sound(after, sends, nextKey, told, given)
      modifies this`record, this`durable
      ensures Valid() && record == after && (exit.Done? ==> durable == record) && !exit.Raised?
      ensures durable == after || durable == old(durable)
    {
      record := after;
      var crashed := Save();
      exit := if crashed then Crashed else Done;
    }

    /** One more thing the server answered. */
    ghost method Hear(answer: Answer)
      requires Valid()
      modifies this`told, this`view
      ensures Valid() && told == old(told) + {answer}
      ensures answer.value.RunView? ==> view == Some(answer.value.run)
    {
      assert Sound(durable, sends, nextKey, told, given);
      StillGrounded(durable, sends, told, told + {answer}, given);
      told := told + {answer};
      if answer.value.RunView? { view := Some(answer.value.run); }
    }

    method Transmit() returns (reply: Reply, crashed: bool)
      requires Valid() && record == durable && OnTheWire(record)
      modifies this`sends, this`told, this`view
      ensures Valid() && old(told) <= told
      ensures |sends| == |old(sends)| + 1 && sends == old(sends) + [sends[|old(sends)|]]
      ensures var p := record.pending.value; var sent := sends[|old(sends)|];
        && sent.key == p.key && sent.request == p.request && sent.run == RunIdOf(record)
        && (!crashed ==> Observes(p.request, p.key, sent.fate, reply))
        && (!crashed && reply.Answered? ==> Answer(p.request, reply.value) in told && (reply.value.RunView? ==> view == Some(reply.value.run)))
        && (!crashed && reply.Threw? && CleanRejection(p.request, reply.failure) ==> sent.rejection == Some(reply.failure.httpStatus))
    {
      assert Sound(durable, sends, nextKey, told, given);
      var p := record.pending.value;
      var fate: Fate := *;
      reply := *;
      crashed := *;
      if !Observes(p.request, p.key, fate, reply) { reply := Threw(ResponseLost); }
      var rejection := if !crashed && reply.Threw? && CleanRejection(p.request, reply.failure) then Some(reply.failure.httpStatus) else None;
      var sent := Send(p.key, p.request, RunIdOf(record), fate, rejection);
      TransmitSound(record, sends, nextKey, told, given, sent);
      sends := sends + [sent];
      if !crashed && reply.Answered? { Hear(Answer(p.request, reply.value)); }
    }

    /** `operations()->wait`, and for an opening the read of the run it names. */
    method Wait() returns (reply: Reply)
      requires Valid() && record.pending.Some?
      modifies this`told, this`view
      ensures Valid() && old(told) <= told
      ensures reply.Answered? ==>
        && Answers(record.pending.value.request, record.pending.value.key, reply.value) && Answer(record.pending.value.request, reply.value) in told
        && (reply.value.RunView? ==> view == Some(reply.value.run))
    {
      reply := *;
      if reply.Answered? && !Answers(record.pending.value.request, record.pending.value.key, reply.value) { reply := Threw(ResponseLost); }
      if reply.Answered? { Hear(Answer(record.pending.value.request, reply.value)); }
    }

    /** `runs()->get` for the held run. */
    method GetRun() returns (found: Option<Run>)
      requires Valid() && record.run.Some?
      modifies this`told, this`view
      ensures Valid() && old(told) <= told
      ensures found.Some? ==> found.value.id == record.run.value.id && RunTold(told, found.value)
    {
      found := *;
      if found.Some? && found.value.id != record.run.value.id { found := None; }
      if found.Some? { Hear(Answer(CreateWorkspace, RunView(found.value))); }
    }

    /** What the exchange of a begun command proves about its transmissions. */
    ghost predicate Proves(uncertain: bool, prior: bool, reading: bool, reply: Reply)
      reads this
    {
      && record.pending.Some?
      && (reply.Answered? ==>
           && Answers(record.pending.value.request, record.pending.value.key, reply.value) && Answer(record.pending.value.request, reply.value) in told
           && (reply.value.RunView? ==> view == Some(reply.value.run)))
      && (reply.Threw? && !reading ==> ThrownByTransport(reply.failure))
      && (reply.Threw? && !reading && !uncertain && CleanRejection(record.pending.value.request, reply.failure) ==> AllRefused(sends, record.pending.value.key))
      && (reply.Threw? && !reading && !prior && record.stage.ReopenStage? && reply.failure.operationId.None? && RefusesReopening(reply.failure) ==>
           AllDenied(sends, record.pending.value.key))
    }

    /** The operation a command started is on disk before the client waits for it. */
    method NoteOperation(operation: OperationId) returns (exit: Exit)
      requires Valid() && record == durable && OnTheWire(record)
      modifies this`record, this`durable
      ensures Valid() && record == WithOperation(old(record), Some(operation)) && !exit.Raised? && (exit.Done? ==> record == durable)
      ensures durable == record || durable == old(durable)
    {
      assert Sound(durable, sends, nextKey, told, given);
      NotedSound(record, sends, nextKey, told, given, operation);
      exit := Move(WithOperation(record, Some(operation)));
    }

    /** The part of `dispatch` that talks to the server, for a record already saved as begun. */
    method Converse(ghost uncertain: bool, ghost prior: bool) returns (reply: Reply, reading: bool, alive: bool)
      requires Valid() && record == durable && OnTheWire(record)
      requires !uncertain ==> NeverSent(sends, record.pending.value.key)
      requires record.stage.ReopenStage? && !prior ==> AllDenied(sends, record.pending.value.key)
      modifies this`record, this`durable, this`sends, this`told, this`view
      ensures Valid()
      ensures alive ==> record == durable && OnTheWire(record) && Proves(uncertain, prior, reading, reply)
      ensures SameTurn(old(record), record) && Only(old(sends), sends, old(record).pending.value.request)
      ensures record.pending.Some? && record == old(record).(pending := record.pending)
      ensures exists operation :: durable == WithOperation(old(record), operation)
      ensures record.pending.value.key == old(record).pending.value.key && record.pending.value.request == old(record).pending.value.request
    {
      assert durable == WithOperation(record, None);
      if record.pending.value.operationId.Some? {
        reply := Wait();
        return reply, true, true;
      }
      ghost var earlier := sends;
      var crashed;
      reply, crashed := Transmit();
      if crashed { return reply, false, false; }
      if reply.Threw? && CleanRejection(record.pending.value.request, reply.failure) {
        if !uncertain { RefusedOnce(earlier, sends[|earlier|]); }
        if record.stage.ReopenStage? && !prior && RefusesReopening(reply.failure) { DeniedAgain(earlier, sends[|earlier|]); }
      }
      if reply.Answered? && reply.value.OperationStarted? {
        var exit := NoteOperation(reply.value.operation);
        if !exit.Done? { return reply, true, false; }
        reply := Wait();
        return reply, true, true;
      }
      return reply, false, true;
    }

    /** The save of the record that the request leaves behind. */
    method Launch() returns (exit: Exit)
      requires Valid() && record == durable && record.pending.Some?
      modifies this`record, this`durable
      ensures Valid() && !exit.Raised? && record == Begin(old(record))
      ensures record.stage.ReopenStage? ==> record.attempts == old(record).attempts + 1
      ensures exit.Done? ==> record == durable && OnTheWire(record)
      ensures durable == record || durable == old(durable)
      ensures old(record).pending.value.phase.Prepared? ==> NeverSent(sends, record.pending.value.key)
      ensures record.stage.ReopenStage? && !old(record).possible ==> AllDenied(sends, record.pending.value.key)
    {
      assert Sound(durable, sends, nextKey, told, given);
      BeginSound(record, sends, nextKey, told, given);
      exit := Move(Begin(record));
    }

    /** `dispatch` and what `drive` makes of its result. */
    method Dispatch() returns (exit: Exit)
      requires Valid() && record == durable && record.pending.Some?
      modifies this`record, this`durable, this`sends, this`told, this`view
      ensures Valid()
      ensures exit.Done? ==> record == durable && Carried(old(record), record)
      ensures exit.Done? && RunAnswered(old(record).pending.value.request) ==> Answered()
      ensures Only(old(sends), sends, old(record).pending.value.request)
      ensures durable == old(durable) || Staged(old(record), durable)
    {
      var uncertain, prior := !record.pending.value.phase.Prepared?, record.possible;
      ghost var before := record;
      exit := Launch();
      if exit.Done? {
        exit := Perform(uncertain, prior, before);
      } else if durable == record {
        assert LeftAs(before, None, false, Threw(ResponseLost), false, durable);
      }
    }

    /** What `dispatch` does once the record is saved as begun. */
    method Perform(uncertain: bool, prior: bool, ghost before: Record) returns (exit: Exit)
      requires Valid() && record == durable && before.pending.Some? && record == Begin(before) && OnTheWire(record)
      requires uncertain == !before.pending.value.phase.Prepared? && prior == before.possible
      requires !uncertain ==> NeverSent(sends, record.pending.value.key)
      requires record.stage.ReopenStage? && !prior ==> AllDenied(sends, record.pending.value.key)
      modifies this`record, this`durable, this`sends, this`told, this`view
      ensures Valid()
      ensures exit.Done? ==> record == durable && Carried(before, record)
      ensures exit.Done? && RunAnswered(before.pending.value.request) ==> Answered()
      ensures Only(old(sends), sends, before.pending.value.request)
      ensures Staged(before, durable)
    {
      var reply, reading, alive := Converse(uncertain, prior);
      ghost var operation :| durable == WithOperation(Begin(before), operation);
      assert LeftAs(before, operation, reading, reply, false, durable);
      if !alive { return Crashed; }
      ghost var begun := record;
      ghost var expired;
      exit, expired := Conclude(uncertain, prior, reading, reply);
      assert LeftAs(before, operation, reading, reply, expired, durable);
      if exit.Done? { CarriedFrom(before, begun, record); }
    }

    /** The handlers of `dispatch`. */
    method Failed(uncertain: bool, prior: bool, reading: bool, failure: Failure) returns (ghost seen: bool)
      requires Valid() && record == durable && OnTheWire(record) && Proves(uncertain, prior, reading, Threw(failure))
      modifies this`record, this`durable
      ensures Valid()
      ensures durable == old(durable) || durable == Fail(old(record), uncertain, prior, reading, failure, seen)
    {
      var expired: bool := *;  // the run lookup of an INVALID_TRANSITION, whose failure counts as no expiry
      seen := expired;
      assert Sound(durable, sends, nextKey, told, given);
      if record.stage.ReopenStage? { FailReopeningSound(record, sends, nextKey, told, given, prior, reading, failure); }
      else { FailCommandSound(record, sends, nextKey, told, given, uncertain, reading, failure, expired); }
      var exit := Move(Fail(record, uncertain, prior, reading, failure, expired));
    }

    /** The save that accepts a result, unless it lacks what `drive` reads; a finalization that failed is saved and raised. */
    method Succeeded(value: Value) returns (exit: Exit)
      requires Valid() && record == durable && record.pending.Some?
      requires Answers(record.pending.value.request, record.pending.value.key, value) && Answer(record.pending.value.request, value) in told
      modifies this`record, this`durable
      ensures Valid()
      ensures exit.Done? ==> record == durable && Carried(old(record), record)
      ensures durable == old(durable) || durable == Accept(old(record), value)
      ensures exit.Done? && RunAnswered(old(record).pending.value.request) ==>
        value.RunView? && record.run == Some(value.run) && record.stage in {ReadyStage, DoneStage}
    {
      var complete: bool := *;
      if !complete { return Raised; }
      assert Sound(durable, sends, nextKey, told, given);
      AcceptSound(record, sends, nextKey, told, given, value);
      ghost var before := record;
      if record.pending.value.request.FinalizeRun? && !value.finalized {
        exit := Move(Accept(record, value));
        return if exit.Done? then Raised else exit;
      }
      AcceptCarries(record, sends, nextKey, value);
      if RunAnswered(record.pending.value.request) { AcceptView(record, value); }
      exit := Move(Accept(record, value));
    }

    method Conclude(uncertain: bool, prior: bool, reading: bool, reply: Reply) returns (exit: Exit, ghost expired: bool)
      requires Valid() && record == durable && OnTheWire(record) && Proves(uncertain, prior, reading, reply)
      modifies this`record, this`durable
      ensures Valid()
      ensures exit.Done? ==> record == durable && Carried(old(record), record)
      ensures exit.Done? && RunAnswered(old(record).pending.value.request) ==> Answered()
      ensures
        || durable == old(durable)
        || (reply.Threw? && durable == Fail(old(record), uncertain, prior, reading, reply.failure, expired))
        || (reply.Answered? && durable == Accept(old(record), reply.value))
    {
      expired := false;
      match reply {
        case Threw(failure) =>
          expired := Failed(uncertain, prior, reading, failure);
          exit := Raised;
        case Answered(value) =>
          exit := Succeeded(value);
      }
    }

    /** `prepare`; a command already pending must be the stage's own. */
    method PrepareCommand(request: Request) returns (exit: Exit)
      requires Valid() && Sound(record, sends, nextKey, told, given) && (record.pending.Some? ==> record == durable)
      requires Sends(record, nextKey, request)
      modifies this`record, this`durable, this`nextKey
      ensures Valid() && SameTurn(old(record), record) && record == old(record).(pending := record.pending)
      ensures exit.Done? ==> record == durable && record.pending.Some? && record.pending.value.request == request
    {
      if record.pending.Some? { return if record.pending.value.request == request then Done else Raised; }
      assert Sound(durable, sends, nextKey, told, given);
      PrepareSound(record, sends, nextKey, told, given, request);
      SoundLater(durable, sends, nextKey, told, given);
      var prepared := Prepare(record, nextKey, request);
      nextKey := nextKey + 1;
      exit := Move(prepared);
    }

    method Command(request: Request) returns (exit: Exit)
      requires Valid() && Sound(record, sends, nextKey, told, given) && (record.pending.Some? ==> record == durable)
      requires Sends(record, nextKey, request)
      modifies this`record, this`durable, this`nextKey, this`sends, this`told, this`view
      ensures Valid()
      ensures exit.Done? ==> record == durable && Performed(old(record), request, record)
      ensures exit.Done? && RunAnswered(request) ==> Answered()
      ensures Only(old(sends), sends, request)
    {
      ghost var before := record;
      exit := PrepareCommand(request);
      if !exit.Done? { return; }
      ghost var prepared := record;
      exit := Dispatch();
      if exit.Done? { CarriedIsPerformed(before, prepared, record, request); }
    }

    // ---------------------------------------------------------------- the stages

    /** Downloads that can fail, then the ready record. */
    method HydrateTurn() returns (exit: Exit)
      requires Valid() && record == durable && record.stage.HydrateStage?
      modifies this`record, this`durable
      ensures Valid()
      ensures exit.Done? ==> record == durable && record.pending.None? && record.stage.ReadyStage? && StaysUnderway(old(record), record)
    {
      assert Sound(durable, sends, nextKey, told, given);
      MoveSound(record, record.(recovery := HydrationIncomplete), sends, nextKey, told, given);
      exit := Move(record.(recovery := HydrationIncomplete));
      if !exit.Done? { return; }
      var downloaded: bool := *;
      if !downloaded {
        MoveSound(record, record.(recovery := HydrationFailed), sends, nextKey, told, given);
        exit := Move(record.(recovery := HydrationFailed));
        return if exit.Done? then Raised else exit;
      }
      MoveSound(record, Hydrated(record), sends, nextKey, told, given);
      exit := Move(Hydrated(record));
    }

    /** The capture of a writable run is taken once, and saved together with the stage that uses it. */
    method CaptureTurn() returns (exit: Exit)
      requires Valid() && record == durable && record.stage.CaptureStage?
      modifies this`record, this`durable
      ensures Valid()
      ensures exit.Done? ==> record == durable && record.pending.None? && Descends(old(record), record) && StaysUnderway(old(record), record)
    {
      assert Sound(durable, sends, nextKey, told, given);
      if record.mode.ReadOnly? {
        MoveSound(record, Completed(record, FinalizeStage), sends, nextKey, told, given);
        exit := Move(Completed(record, FinalizeStage));
        return;
      }
      var captured: bool := *;
      var capture: Capture := *;
      if !captured { return Raised; }
      CapturedKeeps(record, sends, nextKey, capture);
      CapturedGrounded(record, sends, told, given, capture);
      exit := Move(Captured(record, capture));
    }

    /** The files are uploaded in order: the first one at or after the index, or none and then the seal is next. */
    method UploadTurn() returns (exit: Exit)
      requires Valid() && record == durable && record.stage.UploadStage?
      requires record.run.Some? && record.submission.Some? && record.capture.Some? && record.uploadIndex <= |record.capture.value.manifest|
      modifies this`record, this`durable, this`nextKey, this`sends, this`told, this`view
      ensures Valid()
      ensures exit.Done? ==> record == durable && record.pending.None? && Descends(old(record), record) && StaysUnderway(old(record), record)
      ensures var r := old(record); var entries := r.capture.value.manifest; var index := NextFile(entries, r.uploadIndex);
        if index == |entries| then sends == old(sends) && (exit.Done? ==> record.stage.SealStage?)
        else
          var request := UploadFile(r.run.value.id, r.submission.value, r.capture.value.id, index, entries[index]);
          Only(old(sends), sends, request) && (exit.Done? ==> Uploaded(r.(uploadIndex := index), record, entries[index]))
    {
      assert Sound(durable, sends, nextKey, told, given);
      var entries := record.capture.value.manifest;
      var index := NextFile(entries, record.uploadIndex);
      SkipsDirectories(record.receipts, entries, record.uploadIndex);
      if index == |entries| {
        exit := SealNext();
        return;
      }
      AtNextFile(record, sends, nextKey, told, given, index);
      if record.pending.Some? {
        if index != record.uploadIndex { return Raised; }
      } else {
        record := record.(uploadIndex := index);
      }
      exit := Command(UploadFile(record.run.value.id, record.submission.value, record.capture.value.id, index, entries[index]));
    }

    /** No file is left. */
    method SealNext() returns (exit: Exit)
      requires Valid() && record == durable && record.stage.UploadStage? && record.capture.Some?
      requires ReceiptsFor(record.receipts, record.capture.value.manifest, |record.capture.value.manifest|)
      modifies this`record, this`durable
      ensures Valid()
      ensures exit.Done? ==> record == durable && record.pending.None? && record.stage.SealStage? && StaysUnderway(old(record), record)
    {
      if record.pending.Some? { return Raised; }
      assert Sound(durable, sends, nextKey, told, given);
      ReceiptsComplete(record.receipts, record.capture.value.manifest);
      MoveSound(record, Completed(record, SealStage), sends, nextKey, told, given);
      exit := Move(Completed(record, SealStage));
    }

    method SealTurn() returns (exit: Exit)
      requires Valid() && record == durable && record.stage.SealStage?
      modifies this`record, this`durable, this`nextKey, this`sends, this`told, this`view
      ensures Valid()
      ensures exit.Done? ==> record == durable && record.pending.None? && Descends(old(record), record) && StaysUnderway(old(record), record)
      ensures old(sends) <= sends && NoOpeningFrom(sends, |old(sends)|)
    {
      assert Sound(durable, sends, nextKey, told, given);
      exit := Command(SealSubmission(record.run.value.id, record.submission.value, record.capture.value.manifest, record.receipts));
    }

    /** A writable run is finalized with its submission. */
    method FinalizeTurn() returns (exit: Exit)
      requires Valid() && record == durable && record.stage.FinalizeStage?
      modifies this`record, this`durable, this`nextKey, this`sends, this`told, this`view
      ensures Valid()
      ensures exit.Done? ==> record == durable && record.pending.None? && Descends(old(record), record) && StaysUnderway(old(record), record)
      ensures old(sends) <= sends && NoOpeningFrom(sends, |old(sends)|)
    {
      if record.mode.ReadWrite? && record.submission.None? { return Raised; }
      var selected := if record.mode.ReadWrite? then record.submission else None;
      assert Sound(durable, sends, nextKey, told, given);
      exit := Command(FinalizeRun(record.run.value.id, record.run.value.version, selected));
    }

    /** The first run of the workspace, or the next one after a checkpoint. */
    method OpenTurn() returns (exit: Exit)
      requires Valid() && record == durable && record.stage in {OpenStage, ReopenStage}
      modifies this`record, this`durable, this`nextKey, this`sends, this`told, this`view
      ensures Valid() && old(sends) <= sends
      ensures exit.Done? ==> record == durable && record.pending.None? && Descends(old(record), record) && StaysUnderway(old(record), record)
    {
      assert Sound(durable, sends, nextKey, told, given);
      exit := Command(OpenRun(record.workspace));
    }

    /** The one command of the remaining stages. */
    method CommandTurn() returns (exit: Exit)
      requires Valid() && record == durable && record.stage in {CreateStage, SubmissionStage, AbortStage, HeartbeatStage}
      modifies this`record, this`durable, this`nextKey, this`sends, this`told, this`view
      ensures Valid()
      ensures exit.Done? ==> record == durable && record.pending.None? && Descends(old(record), record) && StaysUnderway(old(record), record)
      ensures old(sends) <= sends && NoOpeningFrom(sends, |old(sends)|)
      ensures exit.Done? && old(record).stage in {AbortStage, HeartbeatStage} ==> Answered()
    {
      assert Sound(durable, sends, nextKey, told, given);
      var request: Request;
      match record.stage {
        case CreateStage => request := CreateWorkspace;
        case SubmissionStage => request := CreateSubmission(record.run.value.id);
        case AbortStage => request := AbortRun(record.run.value.id, record.run.value.version);
        case HeartbeatStage => request := RenewLease(record.run.value.id, record.run.value.leaseVersion);
      }
      exit := Command(request);
    }

    /** One turn of the loop of `drive`; `finished` says that the loop returns. */
    method Turn() returns (exit: Exit, finished: bool)
      requires Valid() && record == durable
      modifies this`record, this`durable, this`nextKey, this`sends, this`told, this`view
      ensures Valid()
      ensures exit.Done? ==> record == durable && StaysUnderway(old(record), record)
      ensures exit.Done? && !finished ==> Descends(old(record), record)
      ensures exit.Done? && finished ==> record.pending.None? && record.stage in {ReadyStage, DoneStage}
      ensures old(sends) <= sends && (EndsHere(old(record)) ==> NoOpeningFrom(sends, |old(sends)|))
      ensures exit.Done? && old(record).stage in {AbortStage, HeartbeatStage} ==> Answered()
      ensures old(record).stage in {ReadyStage, DoneStage} ==>
        durable == old(durable) && record == old(record) && sends == old(sends) && view == old(view) && exit == TerminalResult(durable) && finished
    {
      finished := false;
      match record.stage {
        case HydrateStage =>
          exit := HydrateTurn();
          finished := true;
        case CaptureStage => exit := CaptureTurn();
        case UploadStage =>
          Uploading(durable, sends, nextKey, told, given);
          exit := UploadTurn();
        case SealStage => exit := SealTurn();
        case FinalizeStage => exit := FinalizeTurn();
        case ReadyStage | DoneStage =>
          Rests(durable, sends, nextKey, told, given);
          return TerminalResult(record), true;
        case OpenStage | ReopenStage => exit := OpenTurn();
        case _ => exit := CommandTurn();
      }
    }

    /** `drive`: the loop ends on every path, because each turn that does not end it descends. */
    method Drive() returns (exit: Exit)
      requires Valid() && record == durable
      modifies this`record, this`durable, this`nextKey, this`sends, this`told, this`view
      ensures Valid()
      ensures exit.Done? ==> record == durable && record.pending.None? && record.stage in {ReadyStage, DoneStage}
      ensures exit.Done? ==> StaysUnderway(old(record), record)
      ensures old(sends) <= sends && (EndsHere(old(record)) ==> NoOpeningFrom(sends, |old(sends)|))
      ensures exit.Done? && old(record).stage in {AbortStage, HeartbeatStage} ==> Answered()
    {
      while true
        invariant Valid() && record == durable && StaysUnderway(old(record), record)
        invariant old(record).stage in {AbortStage, HeartbeatStage} ==>
          record.stage == old(record).stage || Answered()
        invariant old(sends) <= sends && (EndsHere(old(record)) ==> EndsHere(record) && NoOpeningFrom(sends, |old(sends)|))
        decreases StageRank(record.stage), EntriesLeft(record)
      {
        var finished;
        exit, finished := Turn();
        if !exit.Done? || finished { return; }
      }
    }

    // ---------------------------------------------------------------- the public operations

    method Lock()
      requires Valid()
      modifies this`record
      ensures Valid() && record == durable
    {
      record := durable;
    }

    method Reconcile() returns (exit: Exit)
      requires Valid()
      modifies this
      ensures Valid()
      ensures exit.Done? ==> durable.pending.None? && durable.stage in {ReadyStage, DoneStage} && StaysUnderway(old(durable), durable)
      ensures EndsHere(old(durable)) ==> NoOpeningFrom(sends, |old(sends)|)
    {
      Lock();
      exit := Drive();
    }

    /**
     `finalize` and `checkpoint`. Begun on a ready workspace, the first ends with the run finalized and the
     second on another run; resumed, either ends as the publication in progress was begun.
     */
    method Finish(action: Action) returns (exit: Exit)
      requires Valid() && (action.FinalizeAction? || action.CheckpointAction?)
      modifies this
      ensures Valid()
      ensures exit.Done? && Startable(old(durable)) ==> Published(old(durable), durable, action.CheckpointAction?)
      ensures Startable(old(durable)) && action.FinalizeAction? ==> NoOpeningFrom(sends, |old(sends)|)
      ensures exit.Done? && old(durable).action.Some? ==> StaysUnderway(old(durable), durable)
      ensures old(durable).action.Some? && EndsHere(old(durable)) ==> NoOpeningFrom(sends, |old(sends)|)
      ensures old(durable).action.Some? && old(durable).action != Some(action) ==> exit.Raised? && durable == old(durable) && sends == old(sends)
      ensures old(durable).action.None? && !Startable(old(durable)) ==> durable == old(durable) && sends == old(sends)
      ensures old(durable).action.None? && !Startable(old(durable)) ==>
        exit == if old(durable).stage.DoneStage? then TerminalResult(durable) else Raised
    {
      Lock();
      if record.action.Some? {
        if record.action != Some(action) { return Raised; }
        exit := Drive();
        return;
      }
      if record.stage.DoneStage? { return TerminalResult(record); }
      if !record.stage.ReadyStage? || !record.recovery.ReadyForWork? { return Raised; }
      exit := Start(action);
      if exit.Done? { exit := Drive(); }
    }

    /** The save that begins a publication. */
    method Start(action: Action) returns (exit: Exit)
      requires Valid() && record == durable && Startable(record) && (action.FinalizeAction? || action.CheckpointAction?)
      modifies this`record, this`durable
      ensures Valid() && !exit.Raised? && old(record).run.Some?
      ensures exit.Done? ==> record == durable && Underway(record, Publication(old(record).run.value.id, action.CheckpointAction?))
    {
      assert Sound(durable, sends, nextKey, told, given);
      FinishingKeeps(record, sends, nextKey, action);
      FinishingGrounded(record, sends, told, given, action);
      exit := Move(Finishing(record, action));
    }

    /** `abandonReopen`: only with proof, and then nothing of the reopening was ever accepted. */
    method AbandonReopen() returns (exit: Exit)
      requires Valid()
      modifies this
      ensures Valid() && sends == old(sends)
      ensures exit.Done? ==> MayAbandon(old(durable)) && durable == Abandon(old(durable))
      ensures exit.Done? ==> AllDenied(sends, old(durable).pending.value.key)
      ensures !MayAbandon(old(durable)) ==> exit.Raised? && durable == old(durable)
    {
      Lock();
      if !MayAbandon(record) { return Raised; }
      assert Sound(durable, sends, nextKey, told, given);
      AbandonKeeps(record, sends, nextKey);
      MovedGrounded(record, Abandon(record), sends, told, given);
      exit := Move(Abandon(record));
    }

    /** A renewed lease leaves the workspace ready on the same run; another action in progress is refused. */
    method Heartbeat() returns (exit: Exit)
      requires Valid()
      modifies this
      ensures Valid()
      ensures old(durable).action.Some? && old(durable).action != Some(HeartbeatAction) ==> exit.Raised? && durable == old(durable) && sends == old(sends)
      ensures old(durable).action.None? && !old(durable).stage.ReadyStage? ==> exit.Raised? && durable == old(durable) && sends == old(sends)
      ensures exit.Done? ==> old(durable).run.Some? && Underway(durable, Renewal(old(durable).run.value.id, old(durable).history.settled))
      ensures exit.Done? ==> durable.stage.ReadyStage? && durable.run == view
      ensures old(sends) <= sends && NoOpeningFrom(sends, |old(sends)|)
    {
      Lock();
      if record.action.Some? && record.action != Some(HeartbeatAction) { return Raised; }
      if record.action.None? && !record.stage.ReadyStage? { return Raised; }
      assert Sound(durable, sends, nextKey, told, given);
      ghost var goal := Renewal(record.run.value.id, record.history.settled);
      if record.stage.ReadyStage? {
        MoveSound(record, Beating(record), sends, nextKey, told, given);
        exit := Move(Beating(record));
        if !exit.Done? { return; }
      }
      assert Underway(record, goal);
      exit := Drive();
    }

    /** `seen` is what the lookup of the held run showed. */
    method Abort() returns (exit: Exit, ghost seen: Option<Run>)
      requires Valid()
      modifies this
      ensures Valid()
      ensures exit.Done? ==> old(durable).run.Some? && Underway(durable, Ending(old(durable).run.value.id, old(durable).history.settled))
      ensures old(durable).action != Some(AbortAction) && Unabortable(old(durable)) ==> exit.Raised? && durable == old(durable) && sends == old(sends)
      ensures old(durable).action != Some(AbortAction) && !(seen.Some? && seen.value.state.Active?) ==>
        exit.Raised? && durable == old(durable) && sends == old(sends)
      ensures exit.Done? ==> durable.stage.DoneStage? && durable.run == view
      ensures old(sends) <= sends && NoOpeningFrom(sends, |old(sends)|)
    {
      Lock();
      seen := None;
      if record.action != Some(AbortAction) {
        if Unabortable(record) { return Raised, seen; }
        var found := GetRun();
        seen := found;
        if found.None? || !found.value.state.Active? { return Raised, seen; }
        exit := StartAbort(found.value);
        if !exit.Done? { return; }
      }
      Aborts(durable, sends, nextKey, told, given);
      ghost var goal := Ending(record.run.value.id, record.history.settled);
      assert Underway(record, goal);
      exit := Drive();
    }

    /** The save that begins an abort. */
    method StartAbort(remote: Run) returns (exit: Exit)
      requires Valid() && record == durable && record.pending.None? && RunTold(told, remote)
      requires record.run.Some? && remote.id == record.run.value.id
      modifies this`record, this`durable
      ensures Valid() && !exit.Raised?
      ensures exit.Done? ==> record == durable && record == Aborting(old(record), remote, |sends|)
    {
      assert Sound(durable, sends, nextKey, told, given);
      AbortingKeeps(record, sends, nextKey, remote);
      MovedGrounded(record, Aborting(record, remote, |sends|), sends, told, given);
      exit := Move(Aborting(record, remote, |sends|));
    }

    /** Any number of calls in any order, each of which may raise or be cut short by a crash. */
    method AnyHistory(calls: nat)
      requires Valid()
      modifies this
      ensures Valid() && Guarantees(durable, sends)
      ensures Truthful(durable, told, given) && AllTold(sends, told, given)
      ensures forall i :: 0 <= i < |sends| ==> Purposeful(durable, told, sends[i].request, sends[i].run)
    {
      for call := 0 to calls
        invariant Valid()
      {
        var choice: int := *;
        var exit;
        ghost var seen;
        match choice {
          case 0 => exit := Reconcile();
          case 1 => exit := Finish(FinalizeAction);
          case 2 => exit := Finish(CheckpointAction);
          case 3 => exit := AbandonReopen();
          case 4 => exit := Heartbeat();
          case _ => exit, seen := Abort();
        }
      }
      assert Sound(durable, sends, nextKey, told, given);
      OneCapturePerRun(durable, sends, nextKey);
    }
  }

  /** `terminalResult` and the result of a ready workspace: only a known failure is raised again. */
  function TerminalResult(record: Record): Exit {
    if record.stage.DoneStage? && record.recovery.KnownFailed? then Raised else Done
  }

  /** Something must be reconciled before the run can be aborted. */
  predicate Unabortable(record: Record) {
    record.pending.Some? || record.recovery.UnknownOutcome? || record.recovery.PublishedNeedsReopen? || record.run.None?
  }

  /** A publication can begin. */
  predicate Startable(record: Record) { record.action.None? && record.stage.ReadyStage? && record.recovery.ReadyForWork? }

  /** The publication that the caller asked for has happened, and a checkpoint has gone on to another run. */
  predicate Published(before: Record, after: Record, checkpoint: bool) {
    && before.run.Some? && after.run.Some?
    && if checkpoint then after.stage.ReadyStage? && RunIdOf(after) != RunIdOf(before) && AcceptedFor(after, before.run.value.id)
       else after.stage.DoneStage? && after.recovery.WasFinalized? && RunIdOf(after) == RunIdOf(before)
  }

  /** What a reader of the record and the server may rely on after any history. */
  ghost predicate Guarantees(durable: Record, sends: seq<Sent>) {
    && (durable.pending.Some? && durable.stage.ReopenStage? && !durable.possible ==> AllDenied(sends, durable.pending.value.key))
    && (durable.abandoned.Some? ==> AllDenied(sends, durable.abandoned.value.command.key))
    && NothingForgotten(durable, sends)
    && AtMostOnce(sends)
    && (forall i, j :: 0 <= i < |sends| && 0 <= j < |sends| && sends[i].run == sends[j].run ==>
         SamePublication(sends[i].request, sends[j].request))
    && (durable.history.abortFrom.Some? ==> NoPublicationFrom(sends, durable.history.abortFrom.value))
  }
}
