/**
 The workflows of the TypeScript client (sdk/typescript/src/session.ts) as one deterministic
 program over its journal, and the outcome that program has from any interrupted state.
 */
module TypeScriptWorkflow {
  import opened Prelude
  import opened Manifests

  type Key = nat
  type Manifest = seq<Entry>

  datatype Mode = ReadOnly | ReadWrite
  datatype Workflow = Creating | Opening | Idle | Submit | Finalize | Checkpoint
  datatype Status = OpeningStatus | Ready | Submitting | Finalized | PublishedNeedsReopen | Refreshing | Conflicted

  datatype Run = Run(id: nat, version: nat, active: bool)
  datatype Capture = Capture(id: nat, manifest: Manifest)
  datatype Submission = Submission(id: nat, digest: Option<Manifest>)
  datatype Receipt = Receipt(path: string, id: nat)
  datatype Operation = Operation(id: nat, succeeded: bool)

  /** What the server is asked to do; the private location of the bytes is not part of it. */
  datatype Request =
    | CreateWorkspace
    | OpenRun(workspace: nat)
    | CreateSubmission(run: nat)
    | UploadFile(run: nat, submission: nat, entry: Entry)
    | SealSubmission(run: nat, submission: nat, manifest: Manifest, receipts: seq<Receipt>)
    | FinalizeRun(run: nat, version: nat, selected: Option<nat>)

  datatype Phase = Prepared | Dispatched | OutcomeUnknown
  datatype Pending = Pending(key: Key, request: Request, phase: Phase, operationId: Option<nat>)

  datatype Record = Record(
    workflow: Workflow, status: Status, mode: Mode, workspace: Option<nat>, run: Option<Run>, materialized: bool,
    capture: Option<Capture>, submission: Option<Submission>, receipts: seq<Receipt>,
    lastOperation: Option<Operation>, checkpointReceipt: Option<nat>, pending: Option<Pending>)

  datatype Value =
    | WorkspaceNamed(workspace: nat)
    | CreationFailed(failed: nat)
    | RunOpened(run: Run)
    | SubmissionShown(submission: Submission)
    | ReceiptShown(receipt: Receipt)
    | FinalizationEnded(operation: Operation)

  /** What the stopped workspace holds, and whether its publication and a creation will be accepted. */
  datatype World = World(tree: Manifest, accepts: bool, creates: bool)

  /** Everything the server has done for this session, in order, and what it answered under each key. */
  datatype Server = Server(effects: seq<Request>, replies: map<Key, Value>)

  /** The server names what it creates after its place in the history. */
  function Reply(effects: seq<Request>, request: Request, world: World): Value {
    match request
    case CreateWorkspace => if world.creates then WorkspaceNamed(|effects|) else CreationFailed(|effects|)
    case OpenRun(_) => RunOpened(Run(|effects|, 1, true))
    case CreateSubmission(_) => SubmissionShown(Submission(|effects|, None))
    case UploadFile(_, _, entry) => ReceiptShown(Receipt(entry.path, |effects|))
    case SealSubmission(_, submission, manifest, _) => SubmissionShown(Submission(submission, Some(manifest)))
    case FinalizeRun(_, _, _) => FinalizationEnded(Operation(|effects|, world.accepts))
  }

  predicate Answers(request: Request, value: Value) {
    match request
    case CreateWorkspace => value.WorkspaceNamed? || value.CreationFailed?
    case OpenRun(_) => value.RunOpened?
    case CreateSubmission(_) | SealSubmission(_, _, _, _) => value.SubmissionShown?
    case UploadFile(_, _, _) => value.ReceiptShown?
    case FinalizeRun(_, _, _) => value.FinalizationEnded?
  }

  // ---------------------------------------------------------------- accepting a result

  /** A creation whose operation has failed, whatever its key; the journal keeps it for good. */
  const FAILED_CREATION := Pending(0, CreateWorkspace, Dispatched, Some(0))

  /** What `dispatch` makes of a result, ending with the pending command cleared, unless it is a failed creation. */
  function Accept(record: Record, request: Request, value: Value): Record
    requires Answers(request, value)
  {
    var r := record.(pending := None);
    match request
    case CreateWorkspace =>
      if value.CreationFailed? then r.(pending := Some(FAILED_CREATION)) else r.(workspace := Some(value.workspace))
    case OpenRun(_) =>
      r.(run := Some(value.run), materialized := false,
         status := if record.workflow.Checkpoint? then Refreshing else OpeningStatus,
         capture := None, submission := None, receipts := [], lastOperation := None)
    case CreateSubmission(_) | SealSubmission(_, _, _, _) => r.(submission := Some(value.submission))
    case UploadFile(_, _, _) => r.(receipts := record.receipts + [value.receipt])
    case FinalizeRun(run, _, _) =>
      var ended := r.(lastOperation := Some(value.operation),
                      run := if record.run.Some? then Some(record.run.value.(active := false)) else None);
      if !value.operation.succeeded then ended.(status := Conflicted, workflow := Idle)
      else if record.workflow.Checkpoint? then ended.(checkpointReceipt := Some(run), status := PublishedNeedsReopen)
      else ended.(status := Finalized)
  }

  // ---------------------------------------------------------------- what comes next

  datatype Step = Stop | Local(next: Record) | Send(request: Request)

  function Hydrated(record: Record): Record { record.(materialized := true, status := Ready, workflow := Idle) }

  /** The first file of the manifest without a receipt. */
  function NextUpload(entries: seq<Entry>, receipts: seq<Receipt>): Option<Entry> {
    if entries == [] then None
    else if entries[0].File? && !HasReceipt(receipts, entries[0].path) then Some(entries[0])
    else NextUpload(entries[1..], receipts)
  }

  predicate HasReceipt(receipts: seq<Receipt>, path: string) { exists i :: 0 <= i < |receipts| && receipts[i].path == path }

  /** The captured snapshot with an identity that does not matter. */
  function CaptureNow(record: Record, world: World, id: nat): Record { record.(capture := Some(Capture(id, world.tree))) }

  /** `seal`, as far as its next journal write; `Stop` when the submission is sealed or the capture is refused. */
  function SealNext(record: Record, world: World): Step
    requires record.run.Some?
  {
    if record.mode.ReadOnly? then Stop
    else if record.capture.None? then
      if record.run.value.active && record.materialized then Local(CaptureNow(record, world, 0)) else Stop
    else if record.submission.None? then Send(CreateSubmission(record.run.value.id))
    else if record.submission.value.digest.Some? then Stop
    else
      var upload := NextUpload(record.capture.value.manifest, record.receipts);
      if upload.Some? then Send(UploadFile(record.run.value.id, record.submission.value.id, upload.value))
      else Send(SealSubmission(record.run.value.id, record.submission.value.id, record.capture.value.manifest, record.receipts))
  }

  predicate SealedAsCaptured(record: Record) {
    && record.capture.Some? && record.submission.Some?
    && record.submission.value.digest == Some(record.capture.value.manifest)
  }

  /** `finish` for a run whose publication has not ended. */
  function FinishNext(record: Record, world: World): Step {
    if record.run.None? || (record.lastOperation.Some? && !record.lastOperation.value.succeeded) then Stop
    else if record.mode.ReadOnly? then Send(FinalizeRun(record.run.value.id, record.run.value.version, None))
    else if SealedAsCaptured(record) then
      Send(FinalizeRun(record.run.value.id, record.run.value.version, Some(record.submission.value.id)))
    else SealNext(record, world)
  }

  /** What `reconcile` does to a journal without a pending command; a failed creation stops it. */
  function Next(record: Record, world: World): Step {
    if record.pending.Some? then Stop
    else
    match record.workflow
    case Creating => if record.workspace.None? then Send(CreateWorkspace) else Stop
    case Opening =>
      if record.workspace.None? then Send(CreateWorkspace)
      else if record.run.None? then Send(OpenRun(record.workspace.value))
      else if !record.materialized then Local(Hydrated(record))
      else Stop
    case Submit =>
      if record.run.None? then Stop
      else if SealedAsCaptured(record) then Local(record.(workflow := Idle))
      else SealNext(record, world)
    case Finalize =>
      if record.status.Finalized? || record.status.PublishedNeedsReopen? then Local(record.(workflow := Idle))
      else FinishNext(record, world)
    case Checkpoint =>
      if record.status.Finalized? then Local(record.(status := PublishedNeedsReopen, checkpointReceipt := CheckpointOf(record)))
      else if record.status.PublishedNeedsReopen? then
        if record.workspace.Some? then Send(OpenRun(record.workspace.value)) else Stop
      else if record.status.Refreshing? then Local(Hydrated(record))
      else FinishNext(record, world)
    case Idle =>
      if !record.materialized && record.run.Some? && record.run.value.active then Local(record.(materialized := true, status := Ready)) else Stop
  }

  function CheckpointOf(record: Record): Option<nat> { if record.run.Some? then Some(record.run.value.id) else None }

  // ---------------------------------------------------------------- the program ends

  function SealRank(record: Record): nat {
    if record.capture.None? then 4 else if record.submission.None? then 3 else if record.submission.value.digest.None? then 2 else 1
  }

  function Rank(record: Record): nat {
    if record.pending.Some? then 0
    else
    match record.workflow
    case Creating => if record.workspace.None? then 1 else 0
    case Opening => if record.workspace.None? then 4 else if record.run.None? then 3 else if !record.materialized then 2 else 0
    case Submit => 2 + SealRank(record)
    case Finalize => if record.status.Finalized? || record.status.PublishedNeedsReopen? then 2 else 2 + SealRank(record)
    case Checkpoint =>
      if record.status.Refreshing? then 1
      else if record.status.PublishedNeedsReopen? then 2
      else if record.status.Finalized? then 3
      else 4 + SealRank(record)
    case Idle => if record.materialized then 0 else 1
  }

  function Missing(entries: seq<Entry>, receipts: seq<Receipt>): nat {
    if entries == [] then 0
    else (if entries[0].File? && !HasReceipt(receipts, entries[0].path) then 1 else 0) + Missing(entries[1..], receipts)
  }

  function FilesLeft(record: Record): nat {
    if record.capture.Some? then Missing(record.capture.value.manifest, record.receipts) else 0
  }

  lemma {:induction false} UploadLeavesFewer(entries: seq<Entry>, receipts: seq<Receipt>, receipt: Receipt)
    ensures Missing(entries, receipts + [receipt]) <= Missing(entries, receipts)
    ensures NextUpload(entries, receipts).Some? && receipt.path == NextUpload(entries, receipts).value.path ==>
      Missing(entries, receipts + [receipt]) < Missing(entries, receipts)
  {
    if entries != [] {
      UploadLeavesFewer(entries[1..], receipts, receipt);
      var path := entries[0].path;
      var more := receipts + [receipt];
      if HasReceipt(receipts, path) {
        var i :| 0 <= i < |receipts| && receipts[i].path == path;
        assert more[i].path == path;
      }
      assert more[|receipts|] == receipt;
    }
  }

  /** The record after a step of the program. */
  function StepTo(record: Record, effects: seq<Request>, world: World): (Record, seq<Request>)
    requires !Next(record, world).Stop?
  {
    match Next(record, world)
    case Local(next) => (next, effects)
    case Send(request) => (Accept(record, request, Reply(effects, request, world)), effects + [request])
  }

  predicate Lower(next: Record, record: Record) {
    Rank(next) < Rank(record) || (Rank(next) == Rank(record) && FilesLeft(next) < FilesLeft(record))
  }

  /** A command of the publication moves the publication on and nothing else. */
  lemma SealDescends(record: Record, effects: seq<Request>, world: World)
    requires record.run.Some? && SealNext(record, world).Send?
    ensures var request := SealNext(record, world).request; var next := Accept(record, request, Reply(effects, request, world));
      && next.workflow == record.workflow && next.status == record.status
      && (SealRank(next) < SealRank(record) || (SealRank(next) == SealRank(record) && FilesLeft(next) < FilesLeft(record)))
  {
    if record.capture.Some? {
      var upload := NextUpload(record.capture.value.manifest, record.receipts);
      if upload.Some? { UploadLeavesFewer(record.capture.value.manifest, record.receipts, Receipt(upload.value.path, |effects|)); }
    }
  }

  lemma LocalDescends(record: Record, world: World)
    requires Next(record, world).Local?
    ensures Lower(Next(record, world).next, record)
  {
  }

  predicate Publishes(request: Request) { request.CreateSubmission? || request.UploadFile? || request.SealSubmission? }

  lemma SendDescends(record: Record, effects: seq<Request>, world: World)
    requires Next(record, world).Send? && !Publishes(Next(record, world).request)
    ensures Lower(StepTo(record, effects, world).0, record)
  {
  }

  lemma StepDescends(record: Record, effects: seq<Request>, world: World)
    requires !Next(record, world).Stop?
    ensures Lower(StepTo(record, effects, world).0, record)
  {
    if Next(record, world).Local? {
      LocalDescends(record, world);
    } else if Publishes(Next(record, world).request) {
      SealDescends(record, effects, world);
    } else {
      SendDescends(record, effects, world);
    }
  }

  /** Where an undisturbed client ends, and everything the server has done by then. */
  function Complete(record: Record, effects: seq<Request>, world: World): (Record, seq<Request>)
    decreases Rank(record), FilesLeft(record)
  {
    if Next(record, world).Stop? then (record, effects)
    else
      StepDescends(record, effects, world);
      var (next, done) := StepTo(record, effects, world);
      Complete(next, done, world)
  }

  // ---------------------------------------------------------------- interrupted states

  /** The identity of a capture is private and does not matter, nor do the key and the operation of a command that is kept for good. */
  function Norm(record: Record): Record {
    record.(capture := if record.capture.Some? then Some(record.capture.value.(id := 0)) else None,
            pending := if record.pending.Some? then Some(Pending(0, record.pending.value.request, Dispatched, Some(0))) else None)
  }

  /** The journal as if the pending command's recorded answer had been read, or the command never prepared. */
  function Effective(record: Record, server: Server): Record {
    if record.pending.Some? && record.pending.value.key in server.replies
       && Answers(record.pending.value.request, server.replies[record.pending.value.key])
    then Accept(record, record.pending.value.request, server.replies[record.pending.value.key])
    else record.(pending := None)
  }

  /** Where the session is going to end, whatever has been interrupted so far. */
  function Outcome(record: Record, server: Server, world: World): (Record, seq<Request>) {
    Complete(Norm(Effective(record, server)), server.effects, world)
  }

  /** The pending command is the program's next one, and an answer to it is the last thing the server did. */
  ghost predicate Linked(record: Record, server: Server, world: World, next: Key) {
    && (forall k :: k in server.replies ==> k < next)
    && (record.pending.Some? ==>
         var p := record.pending.value;
         && p.key < next && Next(Norm(record.(pending := None)), world) == Send(p.request)
         && (p.key in server.replies ==>
              && server.effects != []
              && server.effects[|server.effects| - 1] == p.request
              && server.replies[p.key] == Reply(server.effects[..|server.effects| - 1], p.request, world))
         && (p.phase.Prepared? ==> p.key !in server.replies && p.operationId.None?))
  }

  lemma NormNext(record: Record, world: World)
    ensures match Next(record, world)
      case Stop => Next(Norm(record), world).Stop?
      case Send(request) => Next(Norm(record), world) == Send(request)
      case Local(next) => Next(Norm(record), world) == Local(Norm(next))
  {
  }

  lemma NormAccept(record: Record, request: Request, value: Value)
    requires Answers(request, value)
    ensures Norm(Accept(record, request, value)) == Accept(Norm(record), request, value)
  {
  }

  lemma ReplyAnswers(effects: seq<Request>, request: Request, world: World)
    ensures Answers(request, Reply(effects, request, world))
  {
  }

  /** Preparing the next command, or changing its standing, moves nothing. */
  lemma PrepareNeutral(record: Record, after: Record, server: Server, world: World)
    requires record.pending.None? && after == record.(pending := after.pending) && after.pending.Some?
    requires after.pending.value.key !in server.replies
    ensures Outcome(after, server, world) == Outcome(record, server, world)
  {
    assert after.(pending := None) == record;
  }

  lemma StandingNeutral(record: Record, after: Record, server: Server, world: World)
    requires record.pending.Some? && after.pending.Some? && after == record.(pending := after.pending)
    requires after.pending.value.key == record.pending.value.key && after.pending.value.request == record.pending.value.request
    ensures Outcome(after, server, world) == Outcome(record, server, world)
  {
    var value := if record.pending.value.key in server.replies then server.replies[record.pending.value.key] else WorkspaceNamed(0);
    assert after.(pending := None) == record.(pending := None);
    if Answers(record.pending.value.request, value) {
      assert Accept(after, record.pending.value.request, value) == Accept(record, record.pending.value.request, value);
    }
  }

  /** The server accepting the pending command is the program's own next step. */
  lemma AcceptedIsNextStep(record: Record, server: Server, after: Server, world: World, next: Key)
    requires Linked(record, server, world, next) && record.pending.Some?
    requires var p := record.pending.value;
      && p.key !in server.replies
      && after == Server(server.effects + [p.request], server.replies[p.key := Reply(server.effects, p.request, world)])
    ensures Outcome(record, after, world) == Outcome(record, server, world)
  {
    var p := record.pending.value;
    var bare := record.(pending := None);
    var value := Reply(server.effects, p.request, world);
    ReplyAnswers(server.effects, p.request, world);
    assert Accept(record, p.request, value) == Accept(bare, p.request, value);
    NormAccept(bare, p.request, value);
    assert StepTo(Norm(bare), server.effects, world) == (Norm(Accept(bare, p.request, value)), after.effects);
  }

  /** Reading the recorded answer moves nothing either. */
  lemma ReadingNeutral(record: Record, server: Server, world: World)
    requires record.pending.Some? && record.pending.value.key in server.replies
    requires Answers(record.pending.value.request, server.replies[record.pending.value.key])
    requires !CreationOver(record, server)
    ensures Outcome(Accept(record, record.pending.value.request, server.replies[record.pending.value.key]), server, world)
      == Outcome(record, server, world)
  {
  }

  /** A local step of the program, taken on a journal whose capture may have any identity. */
  lemma LocalNeutral(record: Record, after: Record, server: Server, world: World)
    requires record.pending.None? && after.pending.None?
    requires Next(Norm(record), world) == Local(Norm(after))
    ensures Outcome(after, server, world) == Outcome(record, server, world)
  {
    assert record.(pending := None) == record && after.(pending := None) == after;
  }

  /** The pending creation is recorded as failed. */
  predicate CreationOver(record: Record, server: Server) {
    && record.pending.Some? && record.pending.value.request.CreateWorkspace?
    && record.pending.value.key in server.replies && server.replies[record.pending.value.key].CreationFailed?
  }

  /** Where nothing is left to do, the journal and the server's history are the outcome. */
  lemma StoppedIsOutcome(record: Record, server: Server, world: World)
    requires (record.pending.None? && Next(record, world).Stop?) || CreationOver(record, server)
    ensures Outcome(record, server, world) == (Norm(record), server.effects)
  {
    if record.pending.None? {
      NormNext(record, world);
      assert record.(pending := None) == record;
    } else {
      assert Norm(Effective(record, server)) == Norm(record);
    }
  }

  // ---------------------------------------------------------------- the outcome repeats no step

  /** The same logical step; two uploads are the same when they fill the same path. */
  predicate SameStep(a: Request, b: Request) {
    match (a, b)
    case (CreateWorkspace, CreateWorkspace) => true
    case (OpenRun(_), OpenRun(_)) => true
    case (CreateSubmission(_), CreateSubmission(_)) => true
    case (UploadFile(_, _, e), UploadFile(_, _, f)) => e.path == f.path
    case (SealSubmission(_, _, _, _), SealSubmission(_, _, _, _)) => true
    case (FinalizeRun(_, _, _), FinalizeRun(_, _, _)) => true
    case _ => false
  }

  /** The publication of the held run has not ended. */
  predicate Publishing(record: Record) {
    || record.workflow.Submit?
    || (record.workflow.Finalize? && !(record.status in {Finalized, PublishedNeedsReopen}))
    || (record.workflow.Checkpoint? && !(record.status in {Finalized, PublishedNeedsReopen, Refreshing}))
  }

  /** The workflow begins with a creation that has not succeeded yet. */
  predicate CreationAhead(record: Record) { record.workspace.None? && (record.workflow.Creating? || record.workflow.Opening?) }

  /** The step may still be ahead. */
  predicate Ahead(record: Record, request: Request) {
    match request
    case CreateWorkspace => CreationAhead(record) && record.pending != Some(FAILED_CREATION)
    case OpenRun(_) => (record.workflow.Opening? && record.run.None?) || (record.workflow.Checkpoint? && !record.status.Refreshing?)
    case CreateSubmission(_) => Publishing(record) && record.submission.None?
    case UploadFile(_, _, entry) =>
      && Publishing(record) && (record.submission.None? || record.submission.value.digest.None?)
      && !HasReceipt(record.receipts, entry.path)
    case SealSubmission(_, _, _, _) => Publishing(record) && (record.submission.None? || record.submission.value.digest.None?)
    case FinalizeRun(_, _, _) => Publishing(record) && !record.workflow.Submit?
  }

  lemma {:induction false} UploadMissing(entries: seq<Entry>, receipts: seq<Receipt>)
    requires NextUpload(entries, receipts).Some?
    ensures !HasReceipt(receipts, NextUpload(entries, receipts).value.path)
  {
    if entries[0].File? && !HasReceipt(receipts, entries[0].path) { } else { UploadMissing(entries[1..], receipts); }
  }

  lemma SentAhead(record: Record, world: World)
    requires Next(record, world).Send?
    ensures Ahead(record, Next(record, world).request)
  {
    if record.capture.Some? && NextUpload(record.capture.value.manifest, record.receipts).Some? {
      UploadMissing(record.capture.value.manifest, record.receipts);
    }
  }

  lemma LocalAhead(record: Record, world: World, request: Request)
    requires Next(record, world).Local? && Ahead(Next(record, world).next, request)
    ensures Ahead(record, request)
  {
  }

  lemma SendAhead(record: Record, effects: seq<Request>, world: World, request: Request)
    requires Next(record, world).Send? && Ahead(StepTo(record, effects, world).0, request)
    ensures Ahead(record, request) && !SameStep(Next(record, world).request, request)
  {
    var sent := Next(record, world).request;
    if sent.UploadFile? && request.UploadFile? {
      ReceiptAdded(record.receipts, Receipt(sent.entry.path, |effects|), request.entry.path);
    }
  }

  lemma ReceiptAdded(receipts: seq<Receipt>, receipt: Receipt, path: string)
    ensures HasReceipt(receipts + [receipt], path) <==> HasReceipt(receipts, path) || receipt.path == path
  {
    var more := receipts + [receipt];
    if HasReceipt(receipts, path) {
      var i :| 0 <= i < |receipts| && receipts[i].path == path;
      assert more[i].path == path;
    }
    if receipt.path == path { assert more[|receipts|].path == path; }
  }

  ghost predicate NoStepTwice(requests: seq<Request>) {
    forall i, j :: 0 <= i < j < |requests| ==> !SameStep(requests[i], requests[j])
  }

  /** The one snapshot the workflow publishes. */
  function Captured(record: Record, world: World): Manifest {
    if record.capture.Some? then record.capture.value.manifest else world.tree
  }

  /** The step may still be ahead, and what it publishes is taken from the one snapshot. */
  predicate Due(record: Record, world: World, request: Request) {
    && Ahead(record, request)
    && (request.UploadFile? ==> request.entry in Captured(record, world))
    && (request.SealSubmission? ==> request.manifest == Captured(record, world))
  }

  lemma {:induction false} UploadTaken(entries: seq<Entry>, receipts: seq<Receipt>)
    requires NextUpload(entries, receipts).Some?
    ensures NextUpload(entries, receipts).value in entries
  {
    if entries[0].File? && !HasReceipt(receipts, entries[0].path) { } else { UploadTaken(entries[1..], receipts); }
  }

  lemma SentDue(record: Record, world: World)
    requires Next(record, world).Send?
    ensures Due(record, world, Next(record, world).request)
  {
    SentAhead(record, world);
    if Next(record, world).request.UploadFile? { UploadTaken(record.capture.value.manifest, record.receipts); }
  }

  lemma LocalDue(record: Record, world: World, request: Request)
    requires Next(record, world).Local? && Due(Next(record, world).next, world, request)
    ensures Due(record, world, request)
  {
    LocalAhead(record, world, request);
  }

  lemma SendDue(record: Record, effects: seq<Request>, world: World, request: Request)
    requires Next(record, world).Send? && Due(StepTo(record, effects, world).0, world, request)
    ensures Due(record, world, request) && !SameStep(Next(record, world).request, request)
  {
    SendAhead(record, effects, world, request);
  }

  // ---------------------------------------------------------------- what the outcome names

  predicate Holds(record: Record, run: nat) { record.run.Some? && record.run.value.id == run }

  /** The record's own submission, or the one created at its place in the history; `base` effects preceded `added`. */
  ghost predicate Submits(record: Record, base: nat, added: seq<Request>, i: nat, submission: nat)
    requires i <= |added|
  {
    || (record.submission.Some? && record.submission.value.id == submission)
    || exists j :: 0 <= j < i && added[j].CreateSubmission? && submission == base + j
  }

  /** A receipt the record held, or the answer to an upload of its file into the submission. */
  ghost predicate Received(record: Record, base: nat, added: seq<Request>, i: nat, submission: nat, receipt: Receipt)
    requires i <= |added|
  {
    || receipt in record.receipts
    || exists j :: 0 <= j < i && added[j].UploadFile? && added[j].submission == submission && receipt == Receipt(added[j].entry.path, base + j)
  }

  ghost predicate NamesFile(manifest: Manifest, receipt: Receipt) {
    exists i :: 0 <= i < |manifest| && manifest[i].File? && manifest[i].path == receipt.path
  }

  /** Receipts of different files of the manifest. */
  ghost predicate OfFiles(manifest: Manifest, receipts: seq<Receipt>) {
    && (forall k :: 0 <= k < |receipts| ==> NamesFile(manifest, receipts[k]))
    && (forall k, l :: 0 <= k < l < |receipts| ==> receipts[k].path != receipts[l].path)
  }

  /** One receipt for every file of the manifest, and no other. */
  ghost predicate OneReceiptEach(manifest: Manifest, receipts: seq<Receipt>) {
    OfFiles(manifest, receipts) && AllReceived(manifest, receipts)
  }

  /** The submission was sealed with the captured snapshot, before the workflow or earlier in it. */
  ghost predicate SealedBefore(record: Record, world: World, added: seq<Request>, i: nat, submission: nat)
    requires i <= |added|
  {
    || record.submission == Some(Submission(submission, Some(Captured(record, world))))
    || exists j :: 0 <= j < i && added[j].SealSubmission? && added[j].submission == submission && added[j].manifest == Captured(record, world)
  }

  /**
   What a request of the workflow names: the held run and its version, the workspace and the submission that
   were created for it, one receipt for each captured file, and in the finalization of a writable run the
   submission sealed with the captured snapshot.
   */
  ghost predicate Addressed(record: Record, base: nat, world: World, added: seq<Request>, i: nat)
    requires i < |added|
  {
    match added[i]
    case CreateWorkspace => true
    case OpenRun(workspace) =>
      record.workspace == Some(workspace) || exists j :: 0 <= j < i && added[j].CreateWorkspace? && workspace == base + j
    case CreateSubmission(run) => Holds(record, run)
    case UploadFile(run, submission, _) => Holds(record, run) && Submits(record, base, added, i, submission)
    case SealSubmission(run, submission, manifest, receipts) =>
      && Holds(record, run) && Submits(record, base, added, i, submission)
      && OneReceiptEach(manifest, receipts)
      && forall receipt :: receipt in receipts ==> Received(record, base, added, i, submission, receipt)
    case FinalizeRun(run, version, selected) =>
      && Holds(record, run) && record.run.value.version == version
      && if record.mode.ReadOnly? then selected.None? else selected.Some? && SealedBefore(record, world, added, i, selected.value)
  }

  /** The receipts a record starts with are of different captured files. */
  ghost predicate WellReceived(record: Record, world: World) { OfFiles(Captured(record, world), record.receipts) }

  lemma SentAddressed(record: Record, base: nat, world: World, rest: seq<Request>)
    requires Next(record, world).Send? && WellReceived(record, world)
    ensures Addressed(record, base, world, [Next(record, world).request] + rest, 0)
  {
    if Next(record, world).request.SealSubmission? {
      NoUploadAllReceived(record.capture.value.manifest, record.receipts);
    }
  }

  /** An opening forgets the receipts, an upload adds one, and nothing else touches them or the snapshot. */
  lemma ReceiptsNext(record: Record, effects: seq<Request>, world: World)
    requires !Next(record, world).Stop?
    ensures var next := StepTo(record, effects, world).0;
      || next.receipts == []
      || (Captured(next, world) == Captured(record, world)
          && (next.receipts == record.receipts
              || (record.capture.Some? && NextUpload(record.capture.value.manifest, record.receipts).Some?
                  && next.receipts ==
                     record.receipts + [Receipt(NextUpload(record.capture.value.manifest, record.receipts).value.path, |effects|)])))
  {
  }

  lemma ReceivedNext(record: Record, effects: seq<Request>, world: World)
    requires !Next(record, world).Stop? && WellReceived(record, world)
    ensures WellReceived(StepTo(record, effects, world).0, world)
  {
    ReceiptsNext(record, effects, world);
    var next := StepTo(record, effects, world).0;
    if next.receipts != [] && next.receipts != record.receipts {
      var manifest := record.capture.value.manifest;
      OneMoreFile(manifest, record.receipts, Receipt(NextUpload(manifest, record.receipts).value.path, |effects|));
    }
  }

  lemma OneMoreFile(manifest: Manifest, receipts: seq<Receipt>, receipt: Receipt)
    requires OfFiles(manifest, receipts) && NextUpload(manifest, receipts).Some?
    requires receipt.path == NextUpload(manifest, receipts).value.path
    ensures OfFiles(manifest, receipts + [receipt])
  {
    var entry := NextUpload(manifest, receipts).value;
    UploadMissing(manifest, receipts);
    UploadTaken(manifest, receipts);
    NextIsFile(manifest, receipts);
    var i :| 0 <= i < |manifest| && manifest[i] == entry;
    assert NamesFile(manifest, receipt);
    forall k | 0 <= k < |receipts| ensures receipts[k].path != entry.path { assert !HasReceipt(receipts, entry.path); }
  }

  lemma {:induction false} NextIsFile(entries: seq<Entry>, receipts: seq<Receipt>)
    requires NextUpload(entries, receipts).Some?
    ensures NextUpload(entries, receipts).value.File?
  {
    if entries[0].File? && !HasReceipt(receipts, entries[0].path) { } else { NextIsFile(entries[1..], receipts); }
  }

  lemma LocalAddressed(record: Record, base: nat, world: World, added: seq<Request>, i: nat)
    requires Next(record, world).Local? && i < |added|
    requires Addressed(Next(record, world).next, base, world, added, i) && Due(Next(record, world).next, world, added[i])
    ensures Addressed(record, base, world, added, i)
  {
  }

  /** A command of the publication leaves the run, the snapshot and what is known of the submission as they were. */
  lemma PublishingStays(record: Record, effects: seq<Request>, world: World)
    requires Next(record, world).Send? && Publishing(StepTo(record, effects, world).0)
    ensures var next := StepTo(record, effects, world).0; var sent := Next(record, world).request;
      && Publishes(sent) && next.run == record.run && next.mode == record.mode && Captured(next, world) == Captured(record, world)
      && (next.submission == record.submission
          || (sent.CreateSubmission? && next.submission == Some(Submission(|effects|, None)))
          || (sent.SealSubmission? && record.submission.Some? && record.submission.value.id == sent.submission
              && next.submission == Some(Submission(sent.submission, Some(sent.manifest))) && sent.manifest == Captured(record, world)))
      && (next.receipts == record.receipts
          || (sent.UploadFile? && next.receipts == record.receipts + [Receipt(sent.entry.path, |effects|)]
              && record.submission.Some? && sent.submission == record.submission.value.id))
  {
  }

  lemma SubmitsLater(record: Record, effects: seq<Request>, world: World, rest: seq<Request>, i: nat, submission: nat)
    requires Next(record, world).Send? && Publishing(StepTo(record, effects, world).0) && i <= |rest|
    requires Submits(StepTo(record, effects, world).0, |effects| + 1, rest, i, submission)
    ensures Submits(record, |effects|, [Next(record, world).request] + rest, i + 1, submission)
  {
    PublishingStays(record, effects, world);
    var sent := Next(record, world).request;
    var added := [sent] + rest;
    var next := StepTo(record, effects, world).0;
    if next.submission.Some? && next.submission.value.id == submission {
      assert added[0] == sent;
    } else {
      var j :| 0 <= j < i && rest[j].CreateSubmission? && submission == |effects| + 1 + j;
      assert added[j + 1] == rest[j];
    }
  }

  lemma SealedLater(record: Record, effects: seq<Request>, world: World, rest: seq<Request>, i: nat, submission: nat)
    requires Next(record, world).Send? && Publishing(StepTo(record, effects, world).0) && i <= |rest|
    requires SealedBefore(StepTo(record, effects, world).0, world, rest, i, submission)
    ensures SealedBefore(record, world, [Next(record, world).request] + rest, i + 1, submission)
  {
    PublishingStays(record, effects, world);
    var sent := Next(record, world).request;
    var added := [sent] + rest;
    var next := StepTo(record, effects, world).0;
    if next.submission == Some(Submission(submission, Some(Captured(next, world)))) {
      assert added[0] == sent;
    } else {
      var j :| 0 <= j < i && rest[j].SealSubmission? && rest[j].submission == submission && rest[j].manifest == Captured(next, world);
      assert added[j + 1] == rest[j];
    }
  }

  /** A submission not yet created holds no receipts the workflow could seal. */
  lemma ReceivedLater(record: Record, effects: seq<Request>, world: World, rest: seq<Request>, i: nat, submission: nat, receipt: Receipt)
    requires Next(record, world).Send? && Publishing(StepTo(record, effects, world).0) && i <= |rest|
    requires Received(StepTo(record, effects, world).0, |effects| + 1, rest, i, submission, receipt)
    requires Next(record, world).request.UploadFile? ==> submission == Next(record, world).request.submission
    ensures Received(record, |effects|, [Next(record, world).request] + rest, i + 1, submission, receipt)
  {
    PublishingStays(record, effects, world);
    var sent := Next(record, world).request;
    var added := [sent] + rest;
    var next := StepTo(record, effects, world).0;
    if receipt in next.receipts {
      assert added[0] == sent;
    } else {
      var j :| 0 <= j < i && rest[j].UploadFile? && rest[j].submission == submission && receipt == Receipt(rest[j].entry.path, |effects| + 1 + j);
      assert added[j + 1] == rest[j];
    }
  }

  /** What follows an upload goes into the same submission. */
  lemma SameSubmission(record: Record, effects: seq<Request>, world: World, rest: seq<Request>, i: nat, submission: nat)
    requires Next(record, world).Send? && Next(record, world).request.UploadFile? && i <= |rest|
    requires forall j :: 0 <= j < |rest| ==> Due(StepTo(record, effects, world).0, world, rest[j])
    requires Submits(StepTo(record, effects, world).0, |effects| + 1, rest, i, submission)
    ensures submission == Next(record, world).request.submission
  {
    var next := StepTo(record, effects, world).0;
    forall j | 0 <= j < i ensures !rest[j].CreateSubmission? { assert Due(next, world, rest[j]); }
  }

  lemma SealAddressed(record: Record, effects: seq<Request>, world: World, rest: seq<Request>, i: nat)
    requires Next(record, world).Send? && i < |rest| && rest[i].SealSubmission?
    requires forall j :: 0 <= j < |rest| ==> Due(StepTo(record, effects, world).0, world, rest[j])
    requires Addressed(StepTo(record, effects, world).0, |effects| + 1, world, rest, i)
    ensures Addressed(record, |effects|, world, [Next(record, world).request] + rest, i + 1)
  {
    var next := StepTo(record, effects, world).0;
    var added := [Next(record, world).request] + rest;
    assert Due(next, world, rest[i]) && added[i + 1] == rest[i];
    PublishingStays(record, effects, world);
    SubmitsLater(record, effects, world, rest, i, rest[i].submission);
    if Next(record, world).request.UploadFile? { SameSubmission(record, effects, world, rest, i, rest[i].submission); }
    forall receipt | receipt in rest[i].receipts ensures Received(record, |effects|, added, i + 1, rest[i].submission, receipt) {
      ReceivedLater(record, effects, world, rest, i, rest[i].submission, receipt);
    }
  }

  lemma SendAddressed(record: Record, effects: seq<Request>, world: World, rest: seq<Request>, i: nat)
    requires Next(record, world).Send? && i < |rest|
    requires forall j :: 0 <= j < |rest| ==> Due(StepTo(record, effects, world).0, world, rest[j])
    requires Addressed(StepTo(record, effects, world).0, |effects| + 1, world, rest, i)
    ensures Addressed(record, |effects|, world, [Next(record, world).request] + rest, i + 1)
  {
    var next := StepTo(record, effects, world).0;
    var added := [Next(record, world).request] + rest;
    assert Due(next, world, rest[i]) && added[i + 1] == rest[i] && added[0] == Next(record, world).request;
    match rest[i] {
      case CreateWorkspace =>
      case OpenRun(workspace) => OpenAddressed(record, effects, world, rest, i);
      case CreateSubmission(_) => PublishingStays(record, effects, world);
      case UploadFile(_, submission, _) =>
        PublishingStays(record, effects, world);
        SubmitsLater(record, effects, world, rest, i, submission);
      case SealSubmission(_, _, _, _) => SealAddressed(record, effects, world, rest, i);
      case FinalizeRun(_, _, selected) =>
        PublishingStays(record, effects, world);
        if selected.Some? { SealedLater(record, effects, world, rest, i, selected.value); }
    }
  }

  lemma OpenAddressed(record: Record, effects: seq<Request>, world: World, rest: seq<Request>, i: nat)
    requires Next(record, world).Send? && i < |rest| && rest[i].OpenRun?
    requires Addressed(StepTo(record, effects, world).0, |effects| + 1, world, rest, i)
    ensures Addressed(record, |effects|, world, [Next(record, world).request] + rest, i + 1)
  {
    var next := StepTo(record, effects, world).0;
    var added := [Next(record, world).request] + rest;
    assert added[i + 1] == rest[i] && added[0] == Next(record, world).request;
    if next.workspace == Some(rest[i].workspace) {
      assert record.workspace == next.workspace || added[0].CreateWorkspace?;
    } else {
      var j :| 0 <= j < i && rest[j].CreateWorkspace? && rest[i].workspace == |effects| + 1 + j;
      assert added[j + 1] == rest[j];
    }
  }

  /**
   What an undisturbed client adds to the server's history repeats no step, publishes one snapshot and
   names what the history created: it finalizes the submission it sealed with that snapshot.
   */
  lemma {:induction false} CompletionOnce(record: Record, effects: seq<Request>, world: World) returns (added: seq<Request>)
    ensures Complete(record, effects, world).1 == effects + added
    ensures NoStepTwice(added) && forall i :: 0 <= i < |added| ==> Due(record, world, added[i])
    ensures WellReceived(record, world) ==> forall i :: 0 <= i < |added| ==> Addressed(record, |effects|, world, added, i)
    decreases Rank(record), FilesLeft(record)
  {
    if Next(record, world).Stop? {
      added := [];
    } else {
      StepDescends(record, effects, world);
      var (next, done) := StepTo(record, effects, world);
      var rest := CompletionOnce(next, done, world);
      if Next(record, world).Local? {
        added := rest;
      } else {
        added := [Next(record, world).request] + rest;
      }
      OneMoreDue(record, effects, world, rest);
      if WellReceived(record, world) {
        ReceivedNext(record, effects, world);
        OneMoreAddressed(record, effects, world, rest);
      }
    }
  }

  function Adds(record: Record, world: World, rest: seq<Request>): seq<Request>
    requires !Next(record, world).Stop?
  {
    if Next(record, world).Local? then rest else [Next(record, world).request] + rest
  }

  lemma OneMoreDue(record: Record, effects: seq<Request>, world: World, rest: seq<Request>)
    requires !Next(record, world).Stop? && NoStepTwice(rest)
    requires forall i :: 0 <= i < |rest| ==> Due(StepTo(record, effects, world).0, world, rest[i])
    ensures var added := Adds(record, world, rest); NoStepTwice(added) && forall i :: 0 <= i < |added| ==> Due(record, world, added[i])
  {
    if Next(record, world).Local? {
      forall i | 0 <= i < |rest| ensures Due(record, world, rest[i]) { LocalDue(record, world, rest[i]); }
    } else {
      var sent := Next(record, world).request;
      forall i | 0 <= i < |rest| ensures Due(record, world, rest[i]) && !SameStep(sent, rest[i]) {
        SendDue(record, effects, world, rest[i]);
      }
      SentDue(record, world);
    }
  }

  lemma OneMoreAddressed(record: Record, effects: seq<Request>, world: World, rest: seq<Request>)
    requires !Next(record, world).Stop? && WellReceived(record, world)
    requires var (next, done) := StepTo(record, effects, world);
      forall i :: 0 <= i < |rest| ==> Due(next, world, rest[i]) && Addressed(next, |done|, world, rest, i)
    ensures var added := Adds(record, world, rest); forall i :: 0 <= i < |added| ==> Addressed(record, |effects|, world, added, i)
  {
    var added := Adds(record, world, rest);
    forall i | 0 <= i < |added| ensures Addressed(record, |effects|, world, added, i) {
      if Next(record, world).Local? {
        LocalAddressed(record, |effects|, world, rest, i);
      } else if i == 0 {
        SentAddressed(record, |effects|, world, rest);
      } else {
        SendAddressed(record, effects, world, rest, i - 1);
      }
    }
  }

  // ---------------------------------------------------------------- dropping a command

  lemma CompletionExtends(record: Record, effects: seq<Request>, world: World, sent: Request) returns (rest: seq<Request>)
    requires Next(record, world) == Send(sent)
    ensures Complete(record, effects, world).1 == effects + [sent] + rest
  {
    var (next, done) := StepTo(record, effects, world);
    rest := CompletionOnce(next, done, world);
  }

  /** The outcome of an accepted command repeats no step of it. */
  lemma AcceptedOnce(record: Record, server: Server, world: World, next: Key) returns (added: seq<Request>)
    requires Linked(record, server, world, next) && record.pending.Some? && record.pending.value.key in server.replies
    ensures Outcome(record, server, world).1 == server.effects + added
    ensures forall i :: 0 <= i < |added| ==> !SameStep(record.pending.value.request, added[i])
  {
    var p := record.pending.value;
    var bare := record.(pending := None);
    var before := server.effects[..|server.effects| - 1];
    ReplyAnswers(before, p.request, world);
    var value := server.replies[p.key];
    assert Accept(record, p.request, value) == Accept(bare, p.request, value);
    NormAccept(bare, p.request, value);
    var after := StepTo(Norm(bare), before, world).0;
    assert after == Norm(Effective(record, server));
    added := CompletionOnce(after, server.effects, world);
    forall i | 0 <= i < |added| ensures !SameStep(p.request, added[i]) { SendAhead(Norm(bare), before, world, added[i]); }
  }

  /**
   Dropping the pending command moves nothing exactly when it was never accepted; an accepted
   command that is dropped is performed twice.
   */
  lemma DropNeutralExactly(record: Record, server: Server, world: World, next: Key)
    requires Linked(record, server, world, next) && record.pending.Some?
    ensures var dropped := record.(pending := None); var p := record.pending.value;
      && (Outcome(dropped, server, world) == Outcome(record, server, world) <==> p.key !in server.replies)
      && (p.key in server.replies ==>
           var repeated := Outcome(dropped, server, world).1;
           |repeated| > |server.effects| > 0 && repeated[|server.effects| - 1] == repeated[|server.effects|] == p.request)
  {
    var p := record.pending.value;
    var dropped := record.(pending := None);
    if p.key in server.replies {
      var rest := CompletionExtends(Norm(dropped), server.effects, world, p.request);
      var added := AcceptedOnce(record, server, world, next);
      var repeated, once := server.effects + [p.request] + rest, server.effects + added;
      assert repeated[|server.effects|] == p.request;
      if repeated == once {
        assert added[0] == once[|server.effects|];
        assert SameStep(p.request, added[0]);
      }
    }
  }

  // ---------------------------------------------------------------- what the outcome is

  predicate AllReceived(manifest: Manifest, receipts: seq<Receipt>) {
    forall i :: 0 <= i < |manifest| && manifest[i].File? ==> HasReceipt(receipts, manifest[i].path)
  }

  lemma {:induction false} NoUploadAllReceived(entries: seq<Entry>, receipts: seq<Receipt>)
    requires NextUpload(entries, receipts).None?
    ensures AllReceived(entries, receipts)
  {
    if entries != [] {
      NoUploadAllReceived(entries[1..], receipts);
      forall i | 0 <= i < |entries| && entries[i].File? ensures HasReceipt(receipts, entries[i].path) {
        if i > 0 { assert entries[i] == entries[1..][i - 1]; }
      }
    }
  }

  /** A writable run whose publication has begun, and has sealed nothing but its capture with every file received. */
  ghost predicate Publishable(record: Record) {
    && Publishing(record) && record.pending.None? && record.workspace.Some? && record.run.Some? && record.mode.ReadWrite?
    && record.lastOperation.None? && record.materialized && (record.capture.None? ==> record.run.value.active)
    && (record.submission.Some? && record.submission.value.digest.Some? ==>
         SealedAsCaptured(record) && AllReceived(record.capture.value.manifest, record.receipts))
  }

  /** How a publication of `start` has ended. */
  ghost predicate Published(start: Record, final: Record, world: World)
    requires start.run.Some?
  {
    && final.workflow.Idle? && final.pending.None? && final.run.Some?
    && match start.workflow
       case Submit =>
         && final.run == start.run && SealedAsCaptured(final) && final.capture.value.manifest == Captured(start, world)
         && AllReceived(Captured(start, world), final.receipts)
       case Finalize => !final.run.value.active && final.status == (if world.accepts then Finalized else Conflicted)
       case _ =>
         if world.accepts then
           && final.status.Ready? && final.materialized && final.run.value.active && final.capture.None? && final.submission.None?
           && final.lastOperation.None? && final.receipts == [] && final.checkpointReceipt == Some(start.run.value.id)
         else final.status.Conflicted? && !final.run.value.active
  }

  /** Every publication that can start is carried through. */
  lemma {:induction false} PublicationEnds(record: Record, effects: seq<Request>, world: World)
    requires Publishable(record)
    ensures Published(record, Complete(record, effects, world).0, world)
    decreases Rank(record), FilesLeft(record)
  {
    if SealedAsCaptured(record) {
      SealedEnds(record, effects, world);
    } else {
      StepDescends(record, effects, world);
      PublishingGoesOn(record, effects, world);
      var (next, done) := StepTo(record, effects, world);
      PublicationEnds(next, done, world);
    }
  }

  lemma PublishingGoesOn(record: Record, effects: seq<Request>, world: World)
    requires Publishable(record) && !SealedAsCaptured(record)
    ensures !Next(record, world).Stop?
    ensures var next := StepTo(record, effects, world).0;
      && Publishable(next) && next.workflow == record.workflow && next.run == record.run && Captured(next, world) == Captured(record, world)
  {
    if record.capture.Some? && NextUpload(record.capture.value.manifest, record.receipts).None? {
      NoUploadAllReceived(record.capture.value.manifest, record.receipts);
    }
  }

  lemma SealedEnds(record: Record, effects: seq<Request>, world: World)
    requires Publishable(record) && SealedAsCaptured(record)
    ensures Published(record, Complete(record, effects, world).0, world)
  {
    StepDescends(record, effects, world);
    var (next, done) := StepTo(record, effects, world);
    if record.workflow.Checkpoint? && world.accepts {
      ReopeningEnds(next, done, world);
    } else {
      assert Complete(next, done, world).0 == (if next.workflow.Idle? then next else next.(workflow := Idle));
    }
  }

  lemma ReopeningEnds(record: Record, effects: seq<Request>, world: World)
    requires record.workflow.Checkpoint? && record.status.PublishedNeedsReopen? && record.workspace.Some? && record.pending.None?
    ensures var final := Complete(record, effects, world).0;
      && final.workflow.Idle? && final.pending.None? && final.status.Ready? && final.materialized
      && final.run == Some(Run(|effects|, 1, true)) && final.capture.None? && final.submission.None?
      && final.lastOperation.None? && final.receipts == [] && final.checkpointReceipt == record.checkpointReceipt
  {
    StepDescends(record, effects, world);
    var (reopened, done) := StepTo(record, effects, world);
    StepDescends(reopened, done, world);
    var (ready, same) := StepTo(reopened, done, world);
    assert Complete(ready, same, world) == (ready, same);
  }

  lemma CompleteStep(record: Record, effects: seq<Request>, world: World)
    requires !Next(record, world).Stop?
    ensures var (next, done) := StepTo(record, effects, world);
      Complete(record, effects, world) == Complete(next, done, world)
  {
    StepDescends(record, effects, world);
  }

  /** With its workspace known, an opening opens its run and ends ready. */
  lemma RunEnds(record: Record, effects: seq<Request>, world: World)
    requires record.workflow.Opening? && record.pending.None? && record.workspace.Some? && record.run.None?
    ensures var (final, done) := Complete(record, effects, world);
      && final.workflow.Idle? && final.pending.None? && final.status.Ready? && final.materialized
      && final.workspace == record.workspace && final.run == Some(Run(|effects|, 1, true))
      && done == effects + [OpenRun(record.workspace.value)]
  {
    CompleteStep(record, effects, world);
    var (running, done) := StepTo(record, effects, world);
    CompleteStep(running, done, world);
    assert StepTo(running, done, world) == (Hydrated(running), done);
    assert Complete(Hydrated(running), done, world) == (Hydrated(running), done);
  }

  /** An opening creates its workspace and its run and ends ready, or keeps its failed creation and has no other effect. */
  lemma OpeningEnds(record: Record, effects: seq<Request>, world: World)
    requires record.workflow.Opening? && record.pending.None? && record.workspace.None? && record.run.None?
    ensures var (final, done) := Complete(record, effects, world);
      if world.creates then
        && final.workflow.Idle? && final.pending.None? && final.status.Ready? && final.materialized
        && final.workspace == Some(|effects|) && final.run == Some(Run(|effects| + 1, 1, true))
        && done == effects + [CreateWorkspace] + [OpenRun(|effects|)]
      else final == record.(pending := Some(FAILED_CREATION)) && done == effects + [CreateWorkspace]
  {
    CompleteStep(record, effects, world);
    var (created, done) := StepTo(record, effects, world);
    if world.creates {
      RunEnds(created, done, world);
    } else {
      assert Complete(created, done, world) == (created, done);
    }
  }
}
