/**
 The command protocol the clients implement: runs, captures, requests, the logical step each
 request performs, and what it means that a run publishes one capture and no step twice.
 */
module Protocol {
  import opened Exchange
  import opened Lists
  import opened Prelude
  import Manifests
  import Utf8

  datatype Mode = ReadOnly | ReadWrite
  datatype RunState = Active | FinalizingRun | FinalizedRun | AbortedRun | ConflictedRun | FailedRun | ExpiredRun
  datatype Run = Run(id: RunId, base: nat, version: nat, leaseVersion: nat, state: RunState)

  type Entry = Manifests.Entry
  /** A manifest stands for its own digest: SHA-256 is taken to be injective. */
  type Manifest = seq<Entry>
  datatype Capture = Capture(id: nat, manifest: Manifest)
  datatype Receipt = Receipt(path: string, id: nat)
  datatype Submission = Submission(id: SubmissionId, digest: Option<Manifest>, isSealed: bool)

  datatype Request =
    | CreateWorkspace
    | OpenRun(workspace: Option<nat>)
    | CreateSubmission(run: RunId)
    | UploadFile(run: RunId, submission: SubmissionId, captureId: nat, index: nat, entry: Entry)
    | SealSubmission(run: RunId, submission: SubmissionId, manifest: Manifest, receipts: seq<Receipt>)
    | FinalizeRun(run: RunId, runVersion: nat, selected: Option<SubmissionId>)
    | RenewLease(run: RunId, leaseVersion: nat)
    | AbortRun(run: RunId, runVersion: nat)

  datatype CommandPhase = Prepared | Dispatched | OutcomeUnknown
  datatype Pending = Pending(key: Key, request: Request, phase: CommandPhase, operationId: Option<OperationId>)
  datatype Operation = Operation(id: OperationId, revision: nat)

  /**
   History variables of the model. They are not in the journal and no operation reads them.
   settled: keys whose outcome this journal has recorded; blind: keys it dropped without evidence;
   captureOf, submissionOf and receiptsOf: what a run publishes, and the receipts read for it in
   order; asked: whether the caller asked for a checkpoint of the run or for its end; finalized:
   the runs whose finalization was read; abortFrom: how many transmissions preceded the first prepared abort.
   */
  datatype History = History(
    settled: set<Key>, blind: set<Key>, captureOf: map<RunId, Capture>, submissionOf: map<RunId, SubmissionId>,
    receiptsOf: map<RunId, seq<Receipt>>, asked: map<RunId, bool>, finalized: set<RunId>, abortFrom: Option<nat>)

  const NOTHING_YET := History({}, {}, map[], map[], map[], map[], {}, None)

  /** The caller asked for a checkpoint of the run, and its finalization was read. */
  predicate Checkpointed(history: History, run: RunId) {
    run in history.finalized && run in history.asked && history.asked[run]
  }

  /**
   A creation is processed before its response is sent, and these two errors end the processing
   without deciding the operation, which a newer fence may still accept (src/application/runs/process.ts:52-59).
   Every other complete 4xx that names no operation is decided before the command is accepted.
   */
  predicate LeavesOpen(request: Request, httpStatus: int, code: Code) {
    request.CreateWorkspace? && httpStatus == 409 && (code.StaleFence? || code.VersionConflict?)
  }

  // ---------------------------------------------------------------- requests

  predicate Publishes(request: Request) {
    request.UploadFile? || request.SealSubmission? || request.FinalizeRun?
  }

  type Sent = Send<Request>

  function RequestRun(request: Request): Option<RunId> {
    match request
    case CreateWorkspace => None
    case OpenRun(_) => None
    case CreateSubmission(run) => Some(run)
    case UploadFile(run, _, _, _, _) => Some(run)
    case SealSubmission(run, _, _, _) => Some(run)
    case FinalizeRun(run, _, _) => Some(run)
    case RenewLease(run, _) => Some(run)
    case AbortRun(run, _) => Some(run)
  }

  // ---------------------------------------------------------------- at most once

  datatype Step = Step(run: Option<RunId>, rank: nat, index: nat)

  /** The logical step a transmission performs; leases and aborts are not steps of the workflow. */
  predicate IsStep(request: Request) { !request.RenewLease? && !request.AbortRun? }

  function StepOf(request: Request, run: Option<RunId>): Step {
    match request
    case CreateWorkspace => Step(run, 0, 0)
    case CreateSubmission(_) => Step(run, 1, 0)
    case UploadFile(_, _, _, index, _) => Step(run, 2, index)
    case SealSubmission(_, _, _, _) => Step(run, 3, 0)
    case FinalizeRun(_, _, _) => Step(run, 4, 0)
    case _ => Step(run, 9, 0)
  }

  predicate Earlier(a: Step, b: Step) {
    a.run != b.run || a.rank < b.rank || (a.rank == b.rank && a.index < b.index)
  }

  /** At most one key is ever accepted for one logical step. */
  ghost predicate AtMostOnce(sends: seq<Sent>) {
    forall i, j :: 0 <= i < |sends| && 0 <= j < |sends| ==> SameKeyIfSameStep(sends[i], sends[j])
  }

  predicate SameKeyIfSameStep(a: Sent, b: Sent) {
    && a.fate.Accepted? && b.fate.Accepted?
    && IsStep(a.request) && IsStep(b.request)
    && StepOf(a.request, a.run) == StepOf(b.request, b.run)
    ==> a.key == b.key
  }

  // ---------------------------------------------------------------- one capture per run

  function PathOfReceipt(receipt: Receipt): string { receipt.path }

  /** One receipt for every file among the first n entries, in the order of the manifest. */
  ghost predicate ReceiptsFor(receipts: seq<Receipt>, manifest: Manifest, n: nat)
    requires n <= |manifest|
  {
    Map(PathOfReceipt, receipts) == Map(Manifests.PathOf, Manifests.Files(manifest[..n]))
  }

  lemma ReceiptsStart(manifest: Manifest)
    ensures ReceiptsFor([], manifest, 0)
  {
    assert manifest[..0] == [];
  }

  lemma {:induction false} FilesAppend(manifest: Manifest, entry: Entry)
    ensures Manifests.Files(manifest + [entry]) == Manifests.Files(manifest) + if entry.File? then [entry] else []
  {
    var longer := manifest + [entry];
    if manifest == [] {
      assert longer == [entry] && longer[1..] == [];
    } else {
      var rest := manifest[1..];
      assert longer[0] == manifest[0] && longer[1..] == rest + [entry];
      FilesAppend(rest, entry);
      Utf8.Regroup(if manifest[0].File? then [manifest[0]] else [], Manifests.Files(rest), if entry.File? then [entry] else []);
    }
  }

  lemma FilesOneMore(manifest: Manifest, n: nat)
    requires n < |manifest|
    ensures Manifests.Files(manifest[..n + 1]) == Manifests.Files(manifest[..n]) + if manifest[n].File? then [manifest[n]] else []
  {
    assert manifest[..n + 1] == manifest[..n] + [manifest[n]];
    FilesAppend(manifest[..n], manifest[n]);
  }

  lemma ReceiptsSkip(receipts: seq<Receipt>, manifest: Manifest, n: nat)
    requires n < |manifest| && ReceiptsFor(receipts, manifest, n) && manifest[n].Directory?
    ensures ReceiptsFor(receipts, manifest, n + 1)
  {
    FilesOneMore(manifest, n);
  }

  lemma ReceiptsAdd(receipts: seq<Receipt>, manifest: Manifest, n: nat, receipt: Receipt)
    requires n < |manifest| && ReceiptsFor(receipts, manifest, n) && manifest[n].File? && receipt.path == manifest[n].path
    ensures ReceiptsFor(receipts + [receipt], manifest, n + 1)
  {
    FilesOneMore(manifest, n);
    var paths := Map(Manifests.PathOf, Manifests.Files(manifest[..n + 1]));
    assert paths == Map(Manifests.PathOf, Manifests.Files(manifest[..n])) + [receipt.path];
    assert Map(PathOfReceipt, receipts + [receipt]) == Map(PathOfReceipt, receipts) + [receipt.path];
  }

  lemma ReceiptsComplete(receipts: seq<Receipt>, manifest: Manifest)
    requires ReceiptsFor(receipts, manifest, |manifest|)
    ensures SealsFiles(manifest, receipts)
  {
    assert manifest[..|manifest|] == manifest;
  }

  /** Exactly one receipt for every file of the manifest, in its order. */
  ghost predicate SealsFiles(manifest: Manifest, receipts: seq<Receipt>) {
    Map(PathOfReceipt, receipts) == Map(Manifests.PathOf, Manifests.Files(manifest))
  }

  /** The request publishes exactly this capture through exactly this submission, and a seal the receipts read for it. */
  ghost predicate Describes(history: History, request: Request) {
    match request
    case CreateSubmission(run) => run in history.captureOf
    case UploadFile(run, submission, captureId, index, entry) =>
      && run in history.captureOf && run in history.submissionOf
      && submission == history.submissionOf[run]
      && captureId == history.captureOf[run].id
      && index < |history.captureOf[run].manifest| && entry == history.captureOf[run].manifest[index] && entry.File?
    case SealSubmission(run, submission, manifest, receipts) =>
      && run in history.captureOf && run in history.submissionOf
      && submission == history.submissionOf[run]
      && manifest == history.captureOf[run].manifest
      && HasReceipts(history, run, receipts) && SealsFiles(manifest, receipts)
    case FinalizeRun(run, _, selected) =>
      if run in history.captureOf then selected.Some? && HasSubmission(history, run, selected.value)
      else selected.None?
    case _ => true
  }

  predicate PublicationRequest(request: Request) {
    request.CreateSubmission? || Publishes(request)
  }

  predicate HasCapture(history: History, run: RunId, capture: Capture) {
    run in history.captureOf && history.captureOf[run] == capture
  }

  predicate HasSubmission(history: History, run: RunId, submission: SubmissionId) {
    run in history.submissionOf && history.submissionOf[run] == submission
  }

  predicate HasReceipts(history: History, run: RunId, receipts: seq<Receipt>) {
    run in history.receiptsOf && history.receiptsOf[run] == receipts
  }

  /**
   Two transmissions that publish content of one run publish the same capture through the same
   submission, every seal carries the same receipts, one for each captured file in order, and the
   finalization names that submission.
   */
  ghost predicate SamePublication(a: Request, b: Request) {
    match (a, b)
    case (UploadFile(_, m, c, i, e), UploadFile(_, n, d, j, f)) => m == n && c == d && (i == j ==> e == f)
    case (UploadFile(_, m, _, i, e), SealSubmission(_, n, manifest, _)) => m == n && i < |manifest| && manifest[i] == e
    case (SealSubmission(_, m, manifest, read), SealSubmission(_, n, other, again)) =>
      m == n && manifest == other && read == again && SealsFiles(manifest, read)
    case (SealSubmission(_, m, _, _), FinalizeRun(_, _, selected)) => selected == Some(m)
    case (UploadFile(_, m, _, _, _), FinalizeRun(_, _, selected)) => selected == Some(m)
    case _ => true
  }

  ghost predicate NoPublicationFrom(sends: seq<Sent>, from: nat) {
    forall i :: from <= i < |sends| ==> !PublicationRequest(sends[i].request)
  }
}
