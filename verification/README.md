# Verified model of ContextVault's crash-safe protocols

ContextVault hands out workspaces as complete snapshots. A client opens a run, works on a local tree,
captures it once, uploads it, seals it, finalizes it and possibly opens the next run. Every step of the
clients and of the server's compatibility layer has to survive lost responses and a process that dies
between any two lines. This project models that behaviour and proves what it is for.

* **Client sessions.** `PythonSession`, `TypeScriptSession` and `PhpSession` are classes with the record in
  memory, the durable copy that a save replaces atomically, and a history variable with every transmission
  of every command. The server is an environment that follows the port contract of
  src/ports/control-store.ts: a recorded key replays, a new key is accepted or refused, and the response
  may or may not be read. A response may have any status and any code. What it proves is stated once: a
  complete 4xx that names no operation means that its transmission was refused, except the two errors
  that leave a creation open (src/application/runs/process.ts:52-59). `PythonInvariant` and `PhpInvariant` link the journal to that history,
  `PythonGrounds` and `PhpGrounds` link it to what the caller asked for and to everything the server answered, and
  `TypeScriptWorkflow` defines the workflow as one deterministic program, so that crash equivalence can
  be stated.
* **Server-side compatibility layer.** `Publication` (the staged publication), `Capture` (payload ownership),
  `SandboxJournal` and `Sandbox` (the session over both), `Queue` (the per-file queue over the lock).
* **Snapshots and encodings.** `Manifests` gives the pairwise specification, `Canonicalizers` the three
  map-based loops that meet it and the bisection, `Json` and `CanonicalJson` the printer and a parser for RFC 8259
  (sections 4, 5 and 7), `Budget` the byte bound, `Receipts` the compact receipts, `FileStreams` the verified stream.
* **Small machines.** `Administrators` (key rotation) and `Markers` (torn controller markers).

Mutable state of the sources is a class here, and loops are loops. Functions specify them, and lemmas
state what the functions mean. Nondeterministic choices (`:= *`) stand for crashes, lost responses,
refusals and everything else the environment decides.

## Where the code does not meet the property one would expect

* **A destroyed sandbox can leave a live run** (src/services/sandbox.service.ts:105-131). `commitSandbox` dies
  after line 129 and before line 131, so its checkpoint is published and reopened but has no result. A second
  checkpoint goes through. The first one is retried: line 126 overwrites the session's run with the
  old reopened run, and a destruction then never looks at the newer one. `SandboxJournal.LostRun` is that history from the
  beginning, and `SandboxJournal.RetrySafeExactly` says exactly which retries are safe. All
  other histories end with no live run (`Sandbox.SandboxSession.AnyHistory`).
* **Clients drop commands whose outcome nobody knows.** The history marks a key as blind exactly when that
  happens, and the sessions' theorems hold for every server behaviour: whatever was accepted is settled,
  pending or blind. `PythonInvariant.BlindDropExactly` and `PhpInvariant.BlindDropExactly`
  give the condition on the command and its response as equivalences, and `BlindDropForgets` of either session
  shows that the command may then have been accepted. In TypeScript it can happen exactly to a workflow that begins with a
  creation: `TypeScriptSession.AnyHistory` excludes it for all others, and `TypeScriptSession.CreationTwice` builds it for each of those.
  * A creation answered with 409 STALE_FENCE or VERSION_CONFLICT may still be accepted under a newer fence
    (src/application/runs/process.ts:11 and 52-59, src/application/runs/index.ts:21-30). PHP drops the command on the first such
    response, with or without an operation id (sdk/php/src/WorkspaceSession.php:254-270), TypeScript does too and then creates
    again under a new key (sdk/typescript/src/session.ts:242-246), and Python does when the response names no operation
    (sdk/python/contextvault/local.py:298-313).
  * A response without a 4xx status and with code INVALID_TRANSITION is taken for an expired run when the run
    lookup shows one (sdk/python/contextvault/local.py:293-312, sdk/php/src/WorkspaceSession.php:248-256). The server
    itself always sends 409 with that code (src/domain/errors.ts:18), so this takes a proxy or another server. PHP also takes
    REVISION_CONFLICT for a 409 whatever its status, and a 4xx that names an operation for a rejection.

## Model

| member | source | states |
|---|---|---|
| PythonSession.LocalWorkspace.AnyHistory | sdk/python/contextvault/local.py:225-551 | Over any sequence of public calls, each cut short anywhere, and any server responses: at most one accepted key per logical step, one publication per run with its receipts in order and its submission finalized, another run opened from a held one only after its checkpoint was asked for and its finalization read, every accepted command settled, pending or dropped blindly, nothing in the journal or in a request that the server or the caller did not name, and once an abort is durable nothing of the run's publication is ever sent again |
| PythonSession.LocalWorkspace.Dispatch | sdk/python/contextvault/local.py:247-314 | A dispatch keeps the invariant wherever it stops and sends nothing but its own command; it leaves the journal as begun or settled by one reply, judged by what was known of the command before; one that returns has accepted the pending command's own result, settled its key, cleared it in the same save and moved the workflow down |
| PythonSession.LocalWorkspace.Converse | sdk/python/contextvault/local.py:260-283 | The exchange leaves the begun journal with at most the operation noted, and a clean 4xx of a certain command means every transmission of its key was refused |
| PythonSession.LocalWorkspace.Conclude | sdk/python/contextvault/local.py:280-314 | The handlers' single save settles the begun journal by the reply and by the run lookup it asks for, whose failure leaves it unsaved; a drop without evidence is marked as blind |
| PythonSession.LocalWorkspace.PrepareCommand | sdk/python/contextvault/local.py:225-245 | A command is refused exactly when another one is pending without proof of rejection (or the new one is no abort); a refused call changes nothing, and a replaced command stays on record |
| PythonSession.LocalWorkspace.Advance | sdk/python/contextvault/local.py:389-435 | The loop ends on every path, by phase rank, entries left and pending kind, returns with nothing pending in a ready or terminal phase, keeps a publication on its way, and opens no run for one that was to be the last |
| PythonSession.LocalWorkspace.FinalizeNext | sdk/python/contextvault/local.py:428-432 | The finalization names the held run in its version and, in a writable run, its submission |
| PythonSession.LocalWorkspace.Proceed | sdk/python/contextvault/local.py:399-435 | A turn without a pending command either finishes or descends |
| PythonSession.LocalWorkspace.UploadNext | sdk/python/contextvault/local.py:409-424 | The uploading turn skips directories, uploads the next file or ends the list, always with fewer entries left |
| PythonSession.LocalWorkspace.Publish | sdk/python/contextvault/local.py:458-484 | Begun on a ready workspace, a finalize that returns has finalized the same run and opens nothing, and a checkpoint that returns is ready on another run after the first was finalized; resumed, either ends as the publication in progress was begun; a finalized session answers without doing anything |
| PythonSession.LocalWorkspace.Abort | sdk/python/contextvault/local.py:486-504 | A pending command without a rejection proof, or a run not seen active, refuses the abort and changes nothing; only aborts of the held run are sent; a returned abort has aborted, and holds the run as the server answered it |
| PythonSession.LocalWorkspace.Heartbeat | sdk/python/contextvault/local.py:451-456 | Refused with nothing changed while a command is pending; otherwise only the renewal of the held lease is sent, and a returned heartbeat stays in its phase with the lease the server answered |
| PythonSession.LocalWorkspace.Status | sdk/python/contextvault/local.py:442-449 | Nothing but the view of the run changes, to what the server answered |
| PythonSession.LocalWorkspace.CleanUp | sdk/python/contextvault/local.py:506-551 | No transmission; an unproved pending command is refused unchanged; a returned cleanup has seen the run neither active nor finalizing, has the accepted checkpoint confirmed where a reopening was or is put aside, and is complete with nothing pending |
| PythonSession.LocalWorkspace.RetireReopen | sdk/python/contextvault/local.py:192-223 | A rejected reopening is put aside, with its proof and its checkpoint, only when the run was seen finalized and the accepted checkpoint confirmed, and otherwise the journal stays as it was |
| PythonSession.CompletionDescends | sdk/python/contextvault/local.py:316-348 | An accepted command clears itself and descends; an abort ends in aborted and a heartbeat stays in its phase |
| PythonInvariant.NoOrphanedRun | sdk/python/contextvault/local.py:181-245 | In every good journal an accepted opening is settled or still pending under its key, so neither a replaced nor an abandoned nor a definitely rejected command, nor a blind drop, ever lost a run |
| PythonInvariant.OneCapturePerRun | sdk/python/contextvault/local.py:316-348 | Any two transmissions that publish content of one run publish the same capture through the same submission, and every seal carries the receipts read for it, one for each captured file in order |
| PythonInvariant.PrepareKeeps | sdk/python/contextvault/local.py:225-245 | Preparing, and atomically replacing a rejected command by an abort, keeps the invariant |
| PythonInvariant.BeginKeeps | sdk/python/contextvault/local.py:247-259 | So does the save before the request leaves, which gives up the earlier proof |
| PythonInvariant.TransmitKeeps | sdk/python/contextvault/local.py:260-279 | So does any transmission of the begun command with any fate, and no second key is accepted for a step |
| PythonInvariant.FailKeeps | sdk/python/contextvault/local.py:284-314 | So do both exception handlers for every failure the transport or an operation wait can raise, whatever the status and the code |
| PythonInvariant.FailProof | sdk/python/contextvault/local.py:298-306 | After a failure the journal claims a definite rejection only for a certain command with a clean 4xx |
| PythonInvariant.FailGrounds | sdk/python/contextvault/local.py:307-312 | A drop records the operation's outcome, or follows a clean rejection of a certain command, or marks the key as blind, and an opening is never dropped blindly |
| PythonInvariant.DropsAs | sdk/python/contextvault/local.py:290-313 | A command ends as expired exactly when its run turned out to be or the exception says so, as in conflict exactly on another 409, and as failed otherwise, with the command and the run as last read kept in the journal |
| PythonInvariant.AcceptAdvances | sdk/python/contextvault/local.py:316-348 | Accepting a result never steps back in the workflow, and a workflow command always moves on |
| PythonInvariant.AcceptKeeps | sdk/python/contextvault/local.py:316-348 | Accepting keeps the invariant, including the single capture of the run |
| PythonInvariant.AcceptCollected | sdk/python/contextvault/local.py:316-348 | A new submission starts without receipts, and an accepted upload adds the receipt of the next file |
| PythonInvariant.StartPublicationKeeps | sdk/python/contextvault/local.py:458-472 | Binding the capture taken before the run's first submission command keeps the invariant |
| PythonInvariant.RetireKeeps | sdk/python/contextvault/local.py:209-223 | Retiring a rejected reopening keeps the invariant |
| PythonGrounds.AcceptUnderway | sdk/python/contextvault/local.py:316-348 | An accepted result leaves a publication where it can be: a finalization goes on to another run exactly when a checkpoint was asked for |
| PythonGrounds.AcceptTruthful | sdk/python/contextvault/local.py:316-348 | Whatever accepting writes into the journal was said by the server |
| PythonGrounds.AcceptPurpose | sdk/python/contextvault/local.py:316-348 | Accepting keeps what the caller asked for: a run is left for another one only after its checkpoint, and a writable run has a submission when it is finalized |
| PythonGrounds.AcceptSealHeld | sdk/python/contextvault/local.py:330-336 | A writable run goes on to its finalization only with a submission answered as sealed with the captured manifest |
| PythonGrounds.StartPublicationGrounded | sdk/python/contextvault/local.py:458-472 | Beginning a publication records what was asked for, and only of a run that was neither captured nor finalized |
| PythonInvariant.BlindDropExactly | sdk/python/contextvault/local.py:291-312 | Exactly which responses make the client drop a command whose outcome nobody knows |
| PythonInvariant.BlindExactly | sdk/python/contextvault/local.py:284-314 | The key is marked in the history exactly then |
| PythonSession.BlindDropForgets | sdk/python/contextvault/local.py:284-314 | Whatever drops a command blindly may drop an accepted one: the transmission may have been accepted, the journal stays good, and the key is neither pending nor settled |
| PythonSession.StaleCreationForgotten | sdk/python/contextvault/local.py:298-313 | A creation accepted by a newer fence is forgotten after a 409 STALE_FENCE that names no operation |
| PythonSession.MisreportedSealForgotten | sdk/python/contextvault/local.py:291-312 | An accepted seal is forgotten after a 500 INVALID_TRANSITION with an expired run |
| PhpSession.WorkspaceSession.AnyHistory | sdk/php/src/WorkspaceSession.php:187-441 | The same guarantees for the stage loop, over any calls, crashes and server responses: a run is recorded as finalized, a checkpoint as accepted and a reopening as due only if the server answered the finalization of that run as finalized |
| PhpSession.WorkspaceSession.Drive | sdk/php/src/WorkspaceSession.php:274-365 | The loop ends on every path, returns with nothing pending, ready or done, keeps a publication, a renewal or an abort on its way to its end, and opens no run except for a checkpoint |
| PhpSession.WorkspaceSession.Turn | sdk/php/src/WorkspaceSession.php:274-365 | Every turn that does not end the loop descends by stage, entries left and pending command and stays on its way; a finished record raises exactly a known failure |
| PhpSession.WorkspaceSession.Dispatch | sdk/php/src/WorkspaceSession.php:202-272 | A dispatch keeps the invariant wherever it stops and sends nothing but its own command; it leaves the record as begun or after one reply, judged by what was known of the command before; one that returns has accepted and settled the result, which is no failed finalization, and descended |
| PhpSession.WorkspaceSession.Converse | sdk/php/src/WorkspaceSession.php:202-230 | What the exchange proves about all transmissions of the key: all refused for a certain command, all denied for a reopening |
| PhpSession.WorkspaceSession.UploadTurn | sdk/php/src/WorkspaceSession.php:319-327 | The turn sends the first file at or after the index and nothing else, records its receipt and moves behind it, or moves to the seal when no file is left |
| PhpSession.WorkspaceSession.AbandonReopen | sdk/php/src/WorkspaceSession.php:388-409 | Abandoning happens only when allowed and sends nothing; otherwise it is refused unchanged; and once it has happened every transmission of the reopening was denied |
| PhpSession.DeniedMayAbandon | sdk/php/src/WorkspaceSession.php:231-246 | A denied first attempt of a reopening may be abandoned |
| PhpSession.WorkspaceSession.Finish | sdk/php/src/WorkspaceSession.php:370-384 | Begun on a ready workspace, a finalize that returns has ended as finalized on the same run and opens nothing, and a checkpoint that returns is ready on another run with the acceptance of the first recorded; resumed, either ends as it was begun; another action in progress is refused with nothing changed, and a finished record answers its result or raises its failure |
| PhpSession.WorkspaceSession.Abort | sdk/php/src/WorkspaceSession.php:427-441 | A pending command, an unknown outcome, a reopening that is due or a run not seen active refuses the abort with nothing changed; a returned abort has settled its command, ended as aborted on the same run and holds it as the server answered it |
| PhpSession.WorkspaceSession.Heartbeat | sdk/php/src/WorkspaceSession.php:410-417 | Another action, or a workspace that is not ready, refuses the renewal with nothing changed; a returned one has settled its command and is ready on the same run, held as the server answered it |
| PhpSession.AcceptDescends | sdk/php/src/WorkspaceSession.php:274-365 | Accepting any result descends in the loop's measure |
| PhpInvariant.AbandonedReopenOpenedNothing | sdk/php/src/WorkspaceSession.php:388-409 | Whatever reopening the server accepted is settled or pending, so one that may be abandoned, or was, opened no run |
| PhpInvariant.OneCapturePerRun | sdk/php/src/WorkspaceSession.php:306-334 | Any two transmissions that publish content of one run publish the same capture through the same submission, and every seal carries the receipts read for it, one for each captured file in order |
| PhpInvariant.FailReopeningKeeps | sdk/php/src/WorkspaceSession.php:231-246 | The reopening's handler keeps the command, and forgets that it may have been accepted only on a 401 or 403 |
| PhpInvariant.FailCommandKeeps | sdk/php/src/WorkspaceSession.php:247-272 | The other handlers keep the invariant for every failure: a drop reads the operation's failure, follows a clean rejection of a first attempt, or is marked as blind |
| PhpInvariant.BlindDropExactly | sdk/php/src/WorkspaceSession.php:247-270 | Exactly when a command is dropped without evidence: a first attempt, no operation being read, and an undecided response taken for a rejection |
| PhpInvariant.BlindExactly | sdk/php/src/WorkspaceSession.php:247-270 | The key is marked in the history exactly then |
| PhpSession.StaleCreationForgotten | sdk/php/src/WorkspaceSession.php:254-270 | A creation accepted by a newer fence is forgotten after a 409 STALE_FENCE that names its operation |
| PhpSession.BlindDropForgets | sdk/php/src/WorkspaceSession.php:247-270 | Whatever drops a command blindly may drop an accepted one: the transmission may have been accepted, the record stays good, and the key is neither pending nor settled |
| PhpInvariant.TransmitKeeps | sdk/php/src/WorkspaceSession.php:202-230 | A transmission with any fate keeps the invariant, at most one accepted key per step |
| PhpInvariant.AcceptAdvances | sdk/php/src/WorkspaceSession.php:274-365 | Accepting never steps back and a workflow command always moves on |
| PhpInvariant.AcceptKeeps | sdk/php/src/WorkspaceSession.php:274-365 | Accepting keeps the invariant, including the single capture |
| PhpInvariant.AcceptCollected | sdk/php/src/WorkspaceSession.php:316-327 | A new submission starts without receipts, and an accepted upload adds the receipt of the next file |
| PhpInvariant.AbandonKeeps | sdk/php/src/WorkspaceSession.php:388-409 | Abandoning a denied reopening keeps the invariant |
| PhpGrounds.AcceptEnd | sdk/php/src/WorkspaceSession.php:334-351 | After a finalization is accepted the record says finalized, reopening or checkpoint accepted only if the server answered that the run is finalized |
| PhpGrounds.AcceptUnderway | sdk/php/src/WorkspaceSession.php:274-365 | An accepted result keeps a publication, a renewal and an abort on the way to what the caller asked for, unless it is a finalization that failed |
| PhpGrounds.AcceptTruthful | sdk/php/src/WorkspaceSession.php:274-365 | Whatever accepting writes into the record was said by the server |
| PhpGrounds.AcceptPurpose | sdk/php/src/WorkspaceSession.php:274-365 | Accepting keeps what the caller asked for: a run is left for another one only after its checkpoint, and a writable run has a submission when it is finalized |
| TypeScriptSession.AnyHistory | sdk/typescript/src/session.ts:169-360 | Crash equivalence: any number of disturbed reconciliations followed by an undisturbed one leave the journal and the server's effects of a run never disturbed, with no step taken twice, one snapshot published and, of a writable run, the submission sealed with it finalized; unconditionally for every workflow that does not begin with a creation, and otherwise unless that creation was left open and dropped |
| TypeScriptSession.CreationTwice | sdk/typescript/src/session.ts:242-246 | Wherever a creation is ahead, the sequence of journals and server states in which it is accepted, answered as left open, dropped and accepted again under a new key, where an undisturbed client creates once |
| TypeScriptSession.LocalWorkspaceSession.Reconcile | sdk/typescript/src/session.ts:345-360 | Wherever it stops the outcome stays the same, unless a creation was ahead and dropped after it was accepted; when it returns, or when nothing disturbs it, the outcome is reached |
| TypeScriptSession.LocalWorkspaceSession.Dispatch | sdk/typescript/src/session.ts:196-249 | A dispatch keeps the outcome wherever it stops, one that returns has accepted an answer to the pending command, a failed creation is raised and kept, and only a creation can be dropped after it was accepted |
| TypeScriptSession.LocalWorkspaceSession.Drop | sdk/typescript/src/session.ts:242-246 | A first rejection drops the command; that keeps the outcome, and is blind exactly when the command was accepted after all |
| TypeScriptSession.LocalWorkspaceSession.Command | sdk/typescript/src/session.ts:169-175 | Preparing and dispatching the next command keeps the outcome |
| TypeScriptSession.LocalWorkspaceSession.CaptureOnce | sdk/typescript/src/session.ts:274-280 | The capture is taken once; a later call returns the same one |
| TypeScriptSession.LocalWorkspaceSession.UploadMissing | sdk/typescript/src/session.ts:290-298 | The loop performs exactly the uploads still missing, in the order of the manifest |
| TypeScriptSession.LocalWorkspaceSession.Seal | sdk/typescript/src/session.ts:282-305 | A returned seal has sealed exactly the captured manifest |
| TypeScriptSession.LocalWorkspaceSession.Finish | sdk/typescript/src/session.ts:307-318 | A returned finish has published, in the same workflow, through commands whose content CompletionOnce states |
| TypeScriptSession.LocalWorkspaceSession.Reopen | sdk/typescript/src/session.ts:325-335 | A returned reopening has ended the checkpoint workflow on the new run |
| TypeScriptSession.LocalWorkspaceSession.Opening | sdk/typescript/src/session.ts:263-268 | A returned opening has ended the workflow |
| TypeScriptWorkflow.StepDescends | sdk/typescript/src/session.ts:263-360 | Every step of the program descends, so the program ends |
| TypeScriptWorkflow.AcceptedIsNextStep | sdk/typescript/src/session.ts:196-249 | The server accepting the pending command, read or unread, is the program's own next step |
| TypeScriptWorkflow.PrepareNeutral | sdk/typescript/src/session.ts:169-175 | Preparing a command moves nothing, so dropping a refused one loses nothing |
| TypeScriptWorkflow.ReadingNeutral | sdk/typescript/src/session.ts:208-235 | Reading a recorded answer moves nothing |
| TypeScriptWorkflow.DropNeutralExactly | sdk/typescript/src/session.ts:242-246 | Dropping the pending command keeps the outcome if and only if it was never accepted; an accepted one is performed twice |
| TypeScriptWorkflow.CompletionOnce | sdk/typescript/src/session.ts:263-318 | An undisturbed client takes no logical step twice; what it uploads and seals is the one captured snapshot; every request names the held run, and the finalization its version and, in a writable run only, the submission sealed with the captured snapshot; a seal carries exactly one receipt a file, each held before or answered to an upload into the same submission (a journal holds receipts of different captured files only, which is what SelectReceipts accepts) |
| TypeScriptWorkflow.PublicationEnds | sdk/typescript/src/session.ts:282-335 | What the outcome is: a submission sealed with every file received, a finalized or conflicted run, or a fresh run with the checkpoint receipt of the old one |
| TypeScriptWorkflow.OpeningEnds | sdk/typescript/src/session.ts:263-268 | An opening creates its workspace and its run and ends ready, or keeps its failed creation and has no other effect |
| Publication.Publisher.AnyHistory | src/compat/publication.ts:80-170 | Any number of attempts cut short anywhere open at most one run, begin at most one submission, seal only the first journaled source and claim at most one finalization, of the opened or the given run in its version, and all that return give the same result |
| Publication.Publisher.PublishSnapshot | src/compat/publication.ts:80-170 | A retry with another request is refused and changes nothing; a returned attempt describes the first source's files, the given run if there is one, and the one claimed finalization, which the journal names, which names the version its run was opened or given with, and which has succeeded, with its revision; a failed publication is one whose claim has ended in failure, an unknown one has not ended |
| Publication.Publisher.OneResult | src/compat/publication.ts:159-168 | Two results describe one and the same publication |
| Publication.Publisher.LoadOrCreate | src/compat/publication.ts:80-105 | An existing journal is used unchanged, a journal of another request or of another run is refused, and a new one keeps the given run and the version the caller expects |
| Publication.Publisher.WriteAndSeal | src/compat/publication.ts:124-134 | Every file of the manifest in order, then a seal over exactly the receipts read |
| Publication.Publisher.Finalize | src/compat/publication.ts:138-152 | The claim recorded under the derived key is returned whether it is new or replayed |
| Publication.ConsistentOnce | src/compat/publication.ts:80-170 | A consistent journal and server mean that everything happened at most once, for the first source, and that the finalization names the version the run was opened with |
| Publication.WriteKept | src/compat/publication.ts:126-131 | One more file of the manifest keeps the link between receipts, files and keys |
| Capture.CaptureStore.AnyHistory | src/compat/capture.ts:33-165 | Every crash state has an owner record for each payload, distinct captures, and every journaled capture whole until terminal cleanup |
| Capture.CaptureStore.Capture | src/compat/capture.ts:132-165 | A retry returns the same capture, or a new one of the tree scanned now only if the old one was being disposed of and is proven gone; a record of another command refuses with nothing changed, as does a cleaned one; a returned capture is sealed and whole, and a broken one is disposed of unless the process or its disposal is cut short |
| Capture.CaptureStore.Retained | src/compat/capture.ts:56-65 | What an earlier attempt left: its capture, nothing once its disposal is proven, or a refusal that changes nothing |
| Capture.CaptureStore.Discard | src/compat/capture.ts:47-52 | A capture its journal names is never discarded before terminal cleanup; otherwise the payload is gone when the outcome is recorded |
| Capture.CaptureStore.Allocate | src/compat/capture.ts:66-71 | The owner record is durable before any payload |
| Capture.CaptureStore.Build | src/compat/capture.ts:72-79 | A completed payload is sealed only when all files are there |
| Capture.CaptureStore.DiscardUnselected | src/compat/capture.ts:80-82 | A journaled capture and a record of another command are left untouched; any other is gone when the call returns |
| Capture.CaptureStore.BindRun | src/compat/capture.ts:101-108 | A capture keeps the run it is bound to |
| Capture.CaptureStore.CleanupOwned | src/compat/capture.ts:91-100 | Success leaves no payload of the group |
| Capture.CaptureStore.CleanRecord | src/compat/capture.ts:91-100 | A record is left untouched exactly when its run may still need it; otherwise success has cleaned it and its payload is gone |
| Capture.NamedCapture | src/compat/capture.ts:42-65 | A capture named in a journal is whole, or its finished run's cleanup has begun |
| Capture.OnePayloadPerCommand | src/compat/capture.ts:66-79 | Each command has at most one payload, and each payload one command |
| SandboxJournal.RetrySafeExactly | src/services/sandbox.service.ts:105-131 | Retrying a checkpoint is safe if and only if it is not stale, or every live run is named by a capture record |
| SandboxJournal.LostRun | src/services/sandbox.service.ts:78-183 | A concrete history from checkout to destruction that leaves an active run behind |
| SandboxJournal.CarelessRetryLoses | src/services/sandbox.service.ts:105-131 | Every stale retry with an uncaptured live run can lead to a destroyed session with that run still live |
| SandboxJournal.DestroyedLeavesNothing | src/services/sandbox.service.ts:138-183 | Without such retries, a destroyed session has no run active or finalizing |
| SandboxJournal.StepSound | src/services/sandbox.service.ts:48-183 | Every durable step but a careless retry keeps every live run findable |
| SandboxJournal.StructureAfter | src/services/sandbox.service.ts:48-183 | Every step whatsoever keeps openings, checkpoints and runs consistent: a published checkpoint's run is finalized with its commit by its own claim, and a saved result has both |
| SandboxJournal.DestroySetComplete | src/services/sandbox.service.ts:147-169 | No live run escapes the set of runs the destruction looks at |
| SandboxJournal.StaleBlocks | src/services/sandbox.service.ts:105-131 | A safe stale retry is a dead end that only destruction leaves |
| Sandbox.SandboxSession.AnyHistory | src/services/sandbox.service.ts:48-183 | A whole life of the session with any retries: destroyed means no live run unless a careless retry happened |
| Sandbox.SandboxSession.CommitSandbox | src/services/sandbox.service.ts:78-137 | An answer means that the checkpoint was published: its run, the session's when the checkpoint was made, is finalized with the recorded commit by the finalization this key claimed. It names the reopened run the session is back at work on, with the result saved, or none while the stopped session keeps the checkpoint pending. A recorded result is returned with nothing changed, a destroyed session is not found, another pending checkpoint or a session not at work refuses, an unchanged tree makes no checkpoint, a failed publication leaves the checkpoint pending unless its run has ended without it, no other checkpoint is touched, and only a careless retry damages the session |
| Sandbox.SandboxSession.ReopenPending | src/services/sandbox.service.ts:120-136 | A reopening that answers leaves the session at work on the run opened under the saved key with the result saved, or stopped with the checkpoint still pending; the publication is not touched |
| Sandbox.SandboxSession.DestroySandbox | src/services/sandbox.service.ts:138-183 | Success records destroyed, and in an undamaged session nothing is then live; an uncertain session always, and without explicit abandonment a pending, stopped or opening one or one with a capture retained for an active run, is refused unchanged |
| Sandbox.SandboxSession.Recover | src/services/sandbox.service.ts:154-169 | Every opening the server recorded for the session is in its records before anything is aborted, and the session is at the reopened run |
| Sandbox.SandboxSession.AbortAll | src/services/sandbox.service.ts:170-174 | Success means no run of the set is active or finalizing |
| Sandbox.SandboxSession.CheckoutSandbox | src/services/sandbox.service.ts:61-66 | A returned checkout works on the run it opened under its own key |
| Queue.Serializer.OneAtATime | src/compat/journal.ts:29-37 | Of the calls on one file at most one runs |
| Queue.Serializer.InCallOrder | src/compat/journal.ts:29-37 | When a call has started, every earlier call on its file has settled, thrown or not |
| Queue.Serializer.EntryExactly | src/compat/journal.ts:29-37 | A file is in the table exactly until its newest call is cleaned up, hence always while work is left |
| Queue.Serializer.FirstCanProceed | src/compat/journal.ts:29-37 | The first unfinished call of a file runs or may start |
| Queue.Serializer.Start | src/compat/journal.ts:32-34 | A call that starts never finds its lock busy |
| Queue.Serializer.CleanUp | src/compat/journal.ts:35-37 | The table entry goes exactly when it is still this call's |
| Queue.LockTable.Acquire | src/storage/compatibility-lock.ts:12-20 | Granted exactly when the identity is not locked, with a handle of its own |
| Queue.LockHandle.Release | src/storage/compatibility-lock.ts:12-20 | The first release frees the lock and any later one does nothing |
| Queue.RepeatedRelease | src/storage/compatibility-lock.ts:12-20 | Releasing again never frees a later holder's lock |
| Canonicalizers.CanonicalizeManifest | src/domain/manifest.ts:57-102 | Accepts exactly the acceptable snapshots and returns the one byte-sorted form |
| Canonicalizers.CanonicalManifest | sdk/python/contextvault/files.py:57-99 | The same contract for the Python client |
| Canonicalizers.PhpCanonical | sdk/php/src/Manifest.php:56-90 | The same contract for the PHP client |
| Canonicalizers.ClaimPrefixes | src/domain/manifest.ts:57-102 | The table of portable names detects exactly the collisions on path prefixes |
| Canonicalizers.HasFileAbove | src/domain/manifest.ts:57-102 | Finds a file above a path exactly when one exists |
| Canonicalizers.FirstOffending | src/adapters/control/legacy-inventory.ts:213-221 | The bisection returns the least number of leading entries that is refused |
| Canonicalizers.ThresholdExists | src/adapters/control/legacy-inventory.ts:213-221 | Every refused list has such a number, by monotony over prefixes |
| Manifests.PartAcceptable | src/domain/manifest.ts:57-102 | Any part of an acceptable list, in any order, is acceptable |
| Manifests.OrderIrrelevant | src/domain/manifest.ts:57-102 | Acceptance and result ignore input order |
| Manifests.CanonicalIdempotent | src/domain/manifest.ts:57-102 | The canonical form is acceptable and its own canonical form |
| Manifests.AcceptedStaysInside | src/domain/manifest.ts:36-102 | An accepted snapshot stays inside its directory: no component is empty, a dot, two dots or reserved metadata, no path is listed twice, whatever is above an entry is a directory, and files keep their limits and a SHA-256 digest |
| FileStreams.VerifyFileStream | src/domain/manifest.ts:113-126 | The stream ends without an error exactly when the source is the declared file; before that it hands out a bounded prefix in bounded pieces |
| FileStreams.HandAll | src/domain/manifest.ts:118-124 | Reading succeeds exactly when all chunks are bytes and no more than declared, and hands out everything read |
| Json.RoundTrip | src/domain/idempotency.ts:15-39 | The printed text of any value parses to that value |
| Json.PrintInjective | src/domain/idempotency.ts:15-39 | Different values print differently |
| Json.TornObjectUnparsable | mcp/src/private.ts:51-69 | No proper prefix of a printed object is a JSON text |
| CanonicalJson.CanonicalIdentifies | src/domain/idempotency.ts:15-39 | Two values have one canonical text exactly when they differ in key order only |
| CanonicalJson.CanonicalParses | src/domain/idempotency.ts:15-39 | Parsing the canonical text gives the value back up to key order |
| CanonicalJson.RequestDigestIdentifies | src/domain/idempotency.ts:42-44 | Up to collisions, the request digest identifies a request up to key order |
| CanonicalJson.CanonicalJson | src/domain/idempotency.ts:15-39 | Finite items get the canonical text of their tree and all others are refused |
| CanonicalJson.FiniteExactlyWhen | src/domain/idempotency.ts:15-39 | An item is finite exactly when no chain of references repeats an object or reaches an unsupported item: sharing is fine, cycles are not |
| CanonicalJson.Encoder.Encode | src/domain/idempotency.ts:17-37 | The recursive printer restores its ancestor set, prints the tree, and fails only on endless items |
| Budget.ManifestBytes | sdk/php/src/Manifest.php:91-94 | Every accepted manifest prints to at most 32 bytes plus path length and 132 bytes an entry |
| Budget.EntryBytes | sdk/php/src/Manifest.php:56-94 | An accepted entry prints without escapes to its path and at most 131 bytes more |
| Budget.BudgetGuard | sdk/php/src/Manifest.php:25-31 | The guard refuses exactly the limits whose budget exceeds PHP_INT_MAX, and computes the budget without overflow |
| Budget.BudgetSuffices | sdk/php/src/Manifest.php:25-31 | The budget bounds every accepted manifest and is itself a PHP integer |
| Budget.PrivateFile.SaveManifest | sdk/php/src/LocalFiles.php:185-191 | The size gate never refuses an accepted manifest |
| Budget.PrivateFile.AtomicJson | sdk/php/src/LocalFiles.php:185-191 | A text over the bound is refused with the file unchanged, and any other replaces it |
| Budget.TextIdentifiesSnapshot | src/domain/manifest.ts:104-107 | Two accepted snapshots have the same canonical bytes exactly when they list the same entries |
| Receipts.ValidateReceiptSelection | src/application/submissions/selection.ts:10-24 | Succeeds exactly when selections and manifest files are in one-to-one correspondence with matching receipts; then a receipt with the path, length and digest of every file was selected |
| Receipts.CheckedIsBijection | src/application/submissions/selection.ts:10-24 | Equal counts and distinct matching selections already cover every file |
| Receipts.SelectionsFixContent | src/application/submissions/selection.ts:10-28 | Two manifests accepted with the same selections list the same paths, lengths and digests |
| Receipts.SelectReceipts | sdk/typescript/src/session.ts:410-423 | Accepts exactly the receipt lists a session can hold |
| Receipts.RestoreReceipts | sdk/typescript/src/session.ts:424-434 | Accepts exactly the compact lists that expand to such receipts |
| Receipts.KeepReceipts | sdk/typescript/src/session.ts:410-434 | Storing and restoring returns the same receipts |
| Receipts.RewriteReceipts | sdk/typescript/src/session.ts:410-434 | Restoring and storing returns the same compact list |
| Administrators.NeverRevived | src/db/configured-administrator.ts:39-62 | A credential of an earlier epoch is revoked and not current over every history, and no login returns it again, even when its key comes back |
| Administrators.RunLater | src/db/configured-administrator.ts:39-62 | Over every history no authority disappears or changes its identity, a revocation is permanent and raises both versions, versions never fall and provenance never changes |
| Administrators.AdmittedExactly | src/adapters/access/catalog-access-policy.ts:10-12 | Over every history after a login, its principal is admitted if and only if the epoch is still that of the login and its credential was not revoked by name |
| Administrators.CurrentThoughRevokedExactly | src/db/configured-administrator.ts:111-117 | Currentness leaves revocation to the access decision: a credential is current though revoked if and only if it was revoked by name within its own epoch |
| Administrators.CurrentThoughRevoked | src/db/configured-administrator.ts:111-117 | A startup, a login and a revocation by name lead there, and the next login is refused |
| Administrators.RunSound | src/db/configured-administrator.ts:39-117 | Over every history, an unrevoked credential with provenance belongs to the present fingerprint and epoch, if no two of the texts its logins hash into ids collide |
| Administrators.StartupRevokesStale | src/db/configured-administrator.ts:39-85 | A startup of any catalog leaves no global credential of another configuration unrevoked, and none at all without a key |
| Administrators.EpochGrowsExactlyOnChange | src/db/configured-administrator.ts:63-72 | A step raises the epoch by one exactly when it changes the fingerprint |
| Administrators.EpochNeverFalls | src/db/configured-administrator.ts:63-72 | Epochs never fall, and an equal epoch means an equal fingerprint |
| Administrators.LoginExactly | src/middleware/catalog-identity.ts:41-63 | A login succeeds exactly with the current key and a credential not revoked |
| Administrators.FreshLoginSucceeds | src/middleware/catalog-identity.ts:41-63 | After a key change every login with the new key succeeds |
| Administrators.KeyComesBack | src/db/configured-administrator.ts:73-96 | With keys A, B, A again, the first credential of A stays dead and a new one is issued |
| Administrators.KeyComesBackHappens | src/db/configured-administrator.ts:73-96 | For any two keys and any tenant there are digests and a history of startups and a login from the empty catalog in which this happens |
| Administrators.CredentialIdInjective | src/middleware/catalog-identity.ts:41-63 | Without a collision of the two hashed texts, a credential id belongs to one fingerprint, epoch and tenant |
| Administrators.CatalogDatabase.RevokePreviousConfiguredCredentials | src/db/configured-administrator.ts:39-62 | The row loop computes the specified revocation, whatever the row order |
| Administrators.CatalogDatabase.SynchronizeConfiguredAdministrator | src/db/configured-administrator.ts:73-85 | A startup does what the specification says, or fails and changes nothing |
| Administrators.CatalogDatabase.PrincipalForVerifiedAdministrator | src/middleware/catalog-identity.ts:41-63 | A login does what the specification says, or rolls back |
| Administrators.CatalogDatabase.RegisterConfiguredAdministratorProvenance | src/db/configured-administrator.ts:97-110 | Registers exactly when the configuration is present and the provenance is new or equal |
| Administrators.CatalogDatabase.IsCurrentConfiguredAdministrator | src/db/configured-administrator.ts:111-117 | A current configured identity is the administrator's, belongs to no customer and carries the present configuration |
| Markers.TornExactly | mcp/src/private.ts:51-69 | The recognition accepts exactly the proper prefixes of markers of this id with a version 4 UUID |
| Markers.UnparsableRecoveredExactly | mcp/src/private.ts:51-69 | Among unparsable texts exactly the torn markers are removed |
| Markers.InterruptedWriteRecoverable | mcp/src/private.ts:43-69 | A marker write interrupted anywhere is recoverable |
| Markers.InterruptedBytesRecoverable | mcp/src/private.ts:43-69 | The same after any number of bytes, for ASCII ids |
| Markers.WholeMarkerOwned | mcp/src/private.ts:43-69 | A complete marker is owned by exactly the id that wrote it |
| Markers.OtherControllersKept | mcp/src/private.ts:51-69 | A complete marker of another id is never removed |

## Left out

- The SQLite control store, run lifecycle internals and processing leases: the environment follows the port contract of src/ports/control-store.ts and the transitions of src/domain/lifecycle.ts.
- SHA-256 and UUIDs: a manifest, request or identity stands for its own hash, and a fresh UUID is a number never used before. `Administrators` takes the hash as a parameter and assumes no collision among the finitely many texts its logins hash into credential ids; `Administrators.RotationDigests` exhibits such hashes.
- NFC, NFKC case folding and Windows device names: arbitrary functions, so the canonicalizers' results hold for any of them. Lone surrogates, surrogate-pair escapes and fractional numbers are not in the JSON model, whose numbers are integers.
- Messages of the canonicalizers, and which error is reported first when a list has several.
- Filesystem details (inode stamps, links, permissions, fsync): a journal save is atomic, and a save that fails counts as the death of the process, including the refusal of a journal over its size limit.
- HTTP transports, polling intervals, timeouts and authorization reads: only the class of a response is kept.
- PythonSession.LocalWorkspace.AnyHistory: the session's `state` and `error` fields, which nothing reads back, are omitted.
- PhpSession.WorkspaceSession.AnyHistory: only creations, openings and finalizations are answered with operations; status and the deletion of local files are left out.
- TypeScriptSession.LocalWorkspaceSession.Reconcile: heartbeat, abort, status, cleanup and an expiring run are not part of the crash-equivalence model, since they have no place in an undisturbed run to compare with; the stopped workspace and the verdicts on its publication and on a creation are the same before and after a crash, and a wait for a known operation reads the same answer as a replay.
- Publication.Publisher.PublishSnapshot: waiting ends or not by one choice instead of polling, legacy push metadata and the fields of the finished revision are omitted, and a failing binding of a capture is nondeterministic. Journals of the earlier format are taken as a given initial journal.
- Sandbox.SandboxSession.CommitSandbox: a run that ends between the check that it is active and the next save is taken to end right after it; hydration and the comparison of trees are nondeterministic outcomes. Every retry is taken to carry the request of the first call under its key. Every retry is taken to carry the request of the first call under its key. Every retry is taken to carry the request of the first call under its key. Every retry is taken to carry the request of the first call under its key.
- Queue.LockTable.Acquire: the branch over operating system file locks and its retry loop.
- Administrators.CatalogDatabase.Login: credentials other than the configured administrator are only steps that add or revoke other authorities.
- sdk/typescript/src/manifest.ts: a twin of src/domain/manifest.ts with the same loops.
- History variables (accepted keys, the capture of each run, what the caller asked for, the first durable abort, transmissions, answers) exist in the model only.
