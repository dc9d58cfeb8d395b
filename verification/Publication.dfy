/**
 Staged publication of a complete snapshot (src/compat/publication.ts): one journal, replaced
 between stages, and keys derived from the command, so that any number of interrupted retries
 leave at most one run, one submission, one sealed manifest and one finalization behind.
 */
module Publication {
  import opened Lists
  import opened Manifests
  import opened Prelude

  type RunId = nat
  type SubmissionId = nat
  type ReceiptId = nat
  type OperationId = nat
  /** A request stands for its own digest. */
  type Request = string

  /** The identity the derived keys are hashed from; a hash stands for what it hashes. */
  datatype CommandId = CommandId(kind: string, key: string, run: Option<RunId>)

  datatype Key =
    | OpenKey(id: CommandId)
    | BeginKey(id: CommandId)
    | FileKey(id: CommandId, path: string)
    | SealKey(id: CommandId)
    | FinalizeKey(id: CommandId)

  /** Inline sources are those of journals from before captures were kept outside them. */
  datatype Source = Accepted(revision: nat, manifest: seq<Entry>) | Captured(captureId: nat, manifest: seq<Entry>) | Inline(manifest: seq<Entry>)

  datatype FinalizeRequest = FinalizeRequest(expectedRunVersion: nat, submission: SubmissionId)

  datatype Journal = Journal(
    digest: Request, source: Source, runId: Option<RunId>, runVersion: nat, submissionId: Option<SubmissionId>,
    finalizeRequest: Option<FinalizeRequest>, operationId: Option<OperationId>, commandRun: Option<RunId>)

  datatype Receipt = Receipt(path: string, id: ReceiptId)

  /** What the control store has accepted under keys of this command, by its port contract. */
  datatype Opened = Opened(run: RunId, version: nat)
  datatype Begun = Begun(run: RunId, submission: SubmissionId)
  datatype Written = Written(submission: SubmissionId, file: Entry, receipt: ReceiptId)
  datatype Sealed = Sealed(run: RunId, submission: SubmissionId, manifest: seq<Entry>, receipts: seq<Receipt>)
  datatype Claimed = Claimed(run: RunId, request: FinalizeRequest, operation: OperationId)
  datatype Server = Server(
    openings: map<Key, Opened>, begun: map<Key, Begun>, written: map<Key, Written>, sealed: map<Key, Sealed>, claimed: map<Key, Claimed>)

  const NOTHING := Server(map[], map[], map[], map[], map[])

  /** How a claimed finalization ended, once and for all. */
  datatype Ending = Succeeded(revision: nat) | Failed

  datatype Failure = KeyReused | Interrupted | OutcomeUnknown | PublicationFailed
  datatype Published = Published(run: RunId, operation: OperationId, commit: nat, files: seq<string>)

  predicate ClaimedAs(claimed: Claimed, published: Published) {
    claimed.operation == published.operation && claimed.run == published.run
  }

  function Id(kind: string, key: string, journal: Journal): CommandId { CommandId(kind, key, journal.commandRun) }

  // ---------------------------------------------------------------- what journal and server have in common

  ghost predicate OpenKept(j: Journal, id: CommandId, server: Server) {
    && server.openings.Keys <= {OpenKey(id)}
    && (OpenKey(id) in server.openings && j.runId.Some? ==> server.openings[OpenKey(id)] == Opened(j.runId.value, j.runVersion))
    && (j.commandRun.Some? ==> j.runId == j.commandRun)
    && (j.runId.None? ==> j.submissionId.None? && server.begun == map[])
  }

  ghost predicate BeginKept(j: Journal, id: CommandId, server: Server) {
    && server.begun.Keys <= {BeginKey(id)}
    && (BeginKey(id) in server.begun ==> j.runId == Some(server.begun[BeginKey(id)].run))
    && (j.submissionId.Some? ==> BeginKey(id) in server.begun && server.begun[BeginKey(id)].submission == j.submissionId.value)
    && (j.submissionId.None? ==> server.written == map[] && server.sealed == map[] && j.finalizeRequest.None?)
  }

  /** One file of the manifest, written into the submission under its own key. */
  ghost predicate WriteOf(j: Journal, id: CommandId, key: Key, written: Written) {
    && j.submissionId == Some(written.submission) && written.file in Files(j.source.manifest)
    && key == FileKey(id, written.file.path)
  }

  ghost predicate SealKept(j: Journal, id: CommandId, server: Server) {
    && (forall k :: k in server.written ==> WriteOf(j, id, k, server.written[k]))
    && server.sealed.Keys <= {SealKey(id)}
    && (forall k :: k in server.sealed ==>
         && j.runId == Some(server.sealed[k].run) && j.submissionId == Some(server.sealed[k].submission)
         && server.sealed[k].manifest == j.source.manifest
         && ReceiptsFor(j, id, server, server.sealed[k].receipts, |Files(j.source.manifest)|))
  }

  /** The receipts of the first n files, in the order of the manifest. */
  ghost predicate ReceiptsFor(j: Journal, id: CommandId, server: Server, receipts: seq<Receipt>, n: nat) {
    && |receipts| == n <= |Files(j.source.manifest)|
    && forall i :: 0 <= i < n ==>
      var file := Files(j.source.manifest)[i];
      && FileKey(id, file.path) in server.written
      && receipts[i] == Receipt(file.path, server.written[FileKey(id, file.path)].receipt)
  }

  ghost predicate ClaimKept(j: Journal, id: CommandId, server: Server) {
    && server.claimed.Keys <= {FinalizeKey(id)}
    && (j.finalizeRequest.Some? ==>
         && SealKey(id) in server.sealed && j.submissionId == Some(j.finalizeRequest.value.submission)
         && j.finalizeRequest.value.expectedRunVersion == j.runVersion)
    && (FinalizeKey(id) in server.claimed ==>
         && j.finalizeRequest == Some(server.claimed[FinalizeKey(id)].request)
         && j.runId == Some(server.claimed[FinalizeKey(id)].run))
    && (j.operationId.Some? ==> FinalizeKey(id) in server.claimed && server.claimed[FinalizeKey(id)].operation == j.operationId.value)
  }

  ghost predicate Kept(j: Journal, id: CommandId, server: Server) {
    OpenKept(j, id, server) && BeginKept(j, id, server) && SealKept(j, id, server) && ClaimKept(j, id, server)
  }

  /** The durable state: nothing accepted before the first journal, and the journal's source never changes its manifest. */
  ghost predicate Consistent(kind: string, key: string, journal: Option<Journal>, server: Server, first: Option<seq<Entry>>) {
    match journal
    case None => server == NOTHING && first.None?
    case Some(j) => first == Some(j.source.manifest) && Kept(j, Id(kind, key, j), server)
  }

  // ---------------------------------------------------------------- at most one of everything

  /** All that ever happened on behalf of the command. */
  ghost predicate AtMostOnce(server: Server, first: Option<seq<Entry>>) {
    && |server.openings| <= 1 && |server.begun| <= 1 && |server.sealed| <= 1 && |server.claimed| <= 1
    && (forall k :: k in server.sealed ==> Some(server.sealed[k].manifest) == first)
    && (forall k, l :: k in server.claimed && l in server.sealed ==>
         server.claimed[k].request.submission == server.sealed[l].submission && server.claimed[k].run == server.sealed[l].run)
    && (server.claimed != map[] ==> server.sealed != map[])
    && (forall k, l :: k in server.sealed && l in server.begun ==>
         server.sealed[k].submission == server.begun[l].submission && server.sealed[k].run == server.begun[l].run)
    && (forall k, l :: k in server.begun && l in server.openings ==> server.begun[k].run == server.openings[l].run)
    && (forall k, l :: k in server.claimed && l in server.openings ==>
         server.claimed[k].run == server.openings[l].run && server.claimed[k].request.expectedRunVersion == server.openings[l].version)
  }

  lemma SmallMap<K, V>(m: map<K, V>, k: K)
    requires m.Keys <= {k}
    ensures |m| <= 1
  {
    if k in m { assert m.Keys == {k}; assert |m| == |m.Keys|; } else { assert m == map[]; }
  }

  /** Consistency is all it takes. */
  lemma ConsistentOnce(kind: string, key: string, journal: Option<Journal>, server: Server, first: Option<seq<Entry>>)
    requires Consistent(kind, key, journal, server, first)
    ensures AtMostOnce(server, first)
  {
    if journal.Some? {
      var id := Id(kind, key, journal.value);
      SmallMap(server.openings, OpenKey(id));
      SmallMap(server.begun, BeginKey(id));
      SmallMap(server.sealed, SealKey(id));
      SmallMap(server.claimed, FinalizeKey(id));
    }
  }

  /** Writing one more file of the manifest keeps everything. */
  lemma WriteKept(j: Journal, id: CommandId, before: Server, after: Server, i: nat, receipts: seq<Receipt>)
    requires Kept(j, id, before) && i < |Files(j.source.manifest)| && j.submissionId.Some?
    requires before.sealed == map[] && ReceiptsFor(j, id, before, receipts, i)
    requires var file := Files(j.source.manifest)[i]; var k := FileKey(id, file.path);
      after == before || (k !in before.written && k in after.written && after.written[k].submission == j.submissionId.value
        && after.written[k].file == file && after == before.(written := before.written[k := after.written[k]]))
    ensures Kept(j, id, after) && ReceiptsFor(j, id, after, receipts, i)
  {
    var file := Files(j.source.manifest)[i];
    assert file in Files(j.source.manifest);
  }

  class Publisher {
    const kind: string
    const key: string
    const requested: Option<RunId>
    /** The version of the given run that the caller expects. */
    const expected: nat
    var journal: Option<Journal>
    var server: Server
    /** The operations the control store has brought to an end. */
    var ended: map<OperationId, Ending>
    ghost var first: Option<seq<Entry>>

    ghost predicate Valid()
      reads this
    {
      Consistent(kind, key, journal, server, first) && (journal.Some? ==> Requested(journal.value))
    }

    /** A journal made for a given run keeps that run and the version the caller expects of it. */
    predicate Requested(j: Journal) {
      j.commandRun.Some? ==> j.commandRun == requested && j.runVersion == expected
    }

    /** A finalization claimed for a given run names that run and the version the caller expects of it. */
    ghost predicate ClaimsRequested()
      reads this
    {
      journal.Some? && journal.value.commandRun.Some? ==>
        forall k :: k in server.claimed ==> Some(server.claimed[k].run) == requested && server.claimed[k].request.expectedRunVersion == expected
    }

    /** The claimed operation the journal names has come to an end. */
    predicate ClaimEnded()
      reads this
    {
      journal.Some? && journal.value.operationId.Some? && journal.value.operationId.value in ended
    }

    /** The result describes the first source, published by the one claimed finalization, which has succeeded. */
    ghost predicate Describes(published: Published)
      reads this
    {
      && first.Some? && published.files == Map(PathOf, Files(first.value))
      && (exists k :: k in server.claimed && ClaimedAs(server.claimed[k], published))
      && published.operation in ended && ended[published.operation] == Succeeded(published.commit)
    }

    /** A command nobody has issued before, or one whose earlier journal is adopted. */
    constructor (kind: string, key: string, requested: Option<RunId>, expected: nat, earlier: Option<Journal>, accepted: Server)
      requires Consistent(kind, key, earlier, accepted, if earlier.Some? then Some(earlier.value.source.manifest) else None)
      requires earlier.Some? && earlier.value.commandRun.Some? ==> earlier.value.commandRun == requested && earlier.value.runVersion == expected
      ensures Valid() && journal == earlier && server == accepted
      ensures this.kind == kind && this.key == key && this.requested == requested && this.expected == expected
    {
      this.kind, this.key, this.requested, this.expected := kind, key, requested, expected;
      journal, server, ended := earlier, accepted, map[];
      first := if earlier.Some? then Some(earlier.value.source.manifest) else None;
    }

    // ---------------------------------------------------------------- the environment

    /** One atomic replacement; the process may die around it. */
    method Save(j: Journal) returns (alive: bool)
      modifies this`journal
      ensures journal == Some(j) || (!alive && journal == old(journal))
    {
      alive := *;
      var replaced: bool := *;
      if alive || replaced { journal := Some(j); }
    }

    /** A recorded key replays; a new one is accepted or refused; either way the response may never be read. */
    method OpenRun(id: CommandId) returns (r: Option<Opened>)
      modifies this`server
      ensures server == old(server) || (OpenKey(id) !in old(server).openings && OpenKey(id) in server.openings
        && server == old(server).(openings := old(server).openings[OpenKey(id) := server.openings[OpenKey(id)]]))
      ensures r.Some? ==> OpenKey(id) in server.openings && server.openings[OpenKey(id)] == r.value
    {
      var run: RunId, version: nat, accepts: bool, read: bool := *, *, *, *;
      if OpenKey(id) !in server.openings {
        if !accepts { return None; }
        server := server.(openings := server.openings[OpenKey(id) := Opened(run, version)]);
      }
      r := if read then Some(server.openings[OpenKey(id)]) else None;
    }

    method Begin(id: CommandId, run: RunId) returns (r: Option<SubmissionId>)
      modifies this`server
      ensures server == old(server) || (BeginKey(id) !in old(server).begun && BeginKey(id) in server.begun
        && server == old(server).(begun := old(server).begun[BeginKey(id) := server.begun[BeginKey(id)]]))
      ensures BeginKey(id) !in old(server).begun && BeginKey(id) in server.begun ==> server.begun[BeginKey(id)].run == run
      ensures r.Some? ==> BeginKey(id) in server.begun && server.begun[BeginKey(id)] == Begun(run, r.value)
    {
      var submission: SubmissionId, accepts: bool, read: bool := *, *, *;
      if BeginKey(id) !in server.begun {
        if !accepts { return None; }
        server := server.(begun := server.begun[BeginKey(id) := Begun(run, submission)]);
      }
      if server.begun[BeginKey(id)].run != run { return None; }
      r := if read then Some(server.begun[BeginKey(id)].submission) else None;
    }

    method WriteFile(id: CommandId, submission: SubmissionId, file: Entry) returns (r: Option<ReceiptId>)
      modifies this`server
      ensures server == old(server) || (FileKey(id, file.path) !in old(server).written && FileKey(id, file.path) in server.written
        && server == old(server).(written := old(server).written[FileKey(id, file.path) := server.written[FileKey(id, file.path)]]))
      ensures var k := FileKey(id, file.path);
        k !in old(server).written && k in server.written ==> server.written[k] == Written(submission, file, server.written[k].receipt)
      ensures r.Some? ==> FileKey(id, file.path) in server.written && server.written[FileKey(id, file.path)] == Written(submission, file, r.value)
    {
      var receipt: ReceiptId, accepts: bool, read: bool := *, *, *;
      var k := FileKey(id, file.path);
      if k !in server.written {
        if !accepts { return None; }
        server := server.(written := server.written[k := Written(submission, file, receipt)]);
      }
      if server.written[k] != Written(submission, file, server.written[k].receipt) { return None; }
      r := if read then Some(server.written[k].receipt) else None;
    }

    method SealSubmission(id: CommandId, request: Sealed) returns (done: bool)
      modifies this`server
      ensures server == old(server) || (SealKey(id) !in old(server).sealed &&
        server == old(server).(sealed := old(server).sealed[SealKey(id) := request]))
      ensures done ==> SealKey(id) in server.sealed
    {
      var accepts: bool, read: bool := *, *;
      if SealKey(id) !in server.sealed {
        if !accepts { return false; }
        server := server.(sealed := server.sealed[SealKey(id) := request]);
      }
      done := read && server.sealed[SealKey(id)] == request;
    }

    method ClaimFinalization(id: CommandId, run: RunId, request: FinalizeRequest) returns (r: Option<OperationId>)
      modifies this`server
      ensures server == old(server) || (FinalizeKey(id) !in old(server).claimed && FinalizeKey(id) in server.claimed
        && server == old(server).(claimed := old(server).claimed[FinalizeKey(id) := server.claimed[FinalizeKey(id)]]))
      ensures var k := FinalizeKey(id);
        k !in old(server).claimed && k in server.claimed ==> server.claimed[k] == Claimed(run, request, server.claimed[k].operation)
      ensures r.Some? ==> FinalizeKey(id) in server.claimed && server.claimed[FinalizeKey(id)].operation == r.value
    {
      var operation: OperationId, accepts: bool, read: bool := *, *, *;
      var k := FinalizeKey(id);
      if k !in server.claimed {
        if !accepts { return None; }
        server := server.(claimed := server.claimed[k := Claimed(run, request, operation)]);
      }
      if server.claimed[k].request != request { return None; }
      r := if read then Some(server.claimed[k].operation) else None;
    }

    // ---------------------------------------------------------------- the stages

    /** The journal of this command, or a new one for the source the caller provides now. */
    method LoadOrCreate(digest: Request) returns (r: Result<Journal, Failure>)
      requires Valid()
      modifies this`journal, this`first
      ensures Valid()
      ensures r.Ok? ==> journal == Some(r.value) && r.value.digest == digest && (requested.Some? ==> r.value.runId == requested)
      ensures old(journal).Some? ==> journal == old(journal) && first == old(first)
      ensures old(journal).Some? && old(journal).value.digest != digest ==> r == Err(KeyReused)
      ensures r.Err? ==> r.error.KeyReused? || r.error.Interrupted?
    {
      if journal.Some? {
        var j := journal.value;
        if requested.Some? && j.runId != requested { return Err(KeyReused); }
        if j.digest != digest { return Err(KeyReused); }
        return Ok(j);
      }
      var provided: bool, source: Source := *, *;
      if !provided || source.Inline? { return Err(Interrupted); }
      var j := Journal(digest, source, requested, expected, None, None, None, requested);
      var alive := Save(j);
      if journal.Some? { first := Some(source.manifest); }
      if !alive { return Err(Interrupted); }
      r := Ok(j);
    }

    /** An inline source becomes a capture of the same manifest. */
    method Externalize(j: Journal) returns (r: Result<Journal, Failure>)
      requires Valid() && journal == Some(j)
      modifies this`journal
      ensures Valid()
      ensures r.Ok? ==> journal == Some(r.value) && r.value.digest == j.digest && r.value.runId == j.runId && !r.value.source.Inline?
      ensures r.Err? ==> r.error.KeyReused? || r.error.Interrupted?
    {
      if !j.source.Inline? { return Ok(j); }
      var captured: bool, captureId: nat := *, *;
      if !captured { return Err(Interrupted); }
      var next := j.(source := Captured(captureId, j.source.manifest));
      assert Kept(next, Id(kind, key, next), server) by { SourceKept(j, next, Id(kind, key, j), server); }
      var alive := Save(next);
      r := if alive then Ok(next) else Err(Interrupted);
    }

    method EnsureRun(j: Journal) returns (r: Result<Journal, Failure>)
      requires Valid() && journal == Some(j)
      modifies this`journal, this`server
      ensures Valid() && first == old(first) && server.claimed == old(server).claimed
      ensures r.Ok? ==> journal == Some(r.value) && r.value.runId.Some? && r.value.source == j.source && r.value.digest == j.digest
      ensures r.Ok? && j.runId.Some? ==> r.value == j
      ensures r.Err? ==> r.error.KeyReused? || r.error.Interrupted?
    {
      if j.runId.Some? {
        var found: bool := *;
        return if found then Ok(j) else Err(Interrupted);
      }
      var id := Id(kind, key, j);
      var run := OpenRun(id);
      if run.None? { return Err(Interrupted); }
      var next := j.(runId := Some(run.value.run), runVersion := run.value.version);
      var alive := Save(next);
      r := if alive then Ok(next) else Err(Interrupted);
    }

    method EnsureSubmission(j: Journal) returns (r: Result<Journal, Failure>)
      requires Valid() && journal == Some(j) && j.runId.Some?
      modifies this`journal, this`server
      ensures Valid() && first == old(first) && server.claimed == old(server).claimed
      ensures r.Ok? ==> journal == Some(r.value) && r.value == j.(submissionId := r.value.submissionId) && r.value.submissionId.Some?
      ensures r.Err? ==> r.error.KeyReused? || r.error.Interrupted?
    {
      if j.submissionId.Some? {
        var found: bool := *;
        return if found then Ok(j) else Err(Interrupted);
      }
      var id := Id(kind, key, j);
      var submission := Begin(id, j.runId.value);
      if submission.None? { return Err(Interrupted); }
      var next := j.(submissionId := submission);
      var alive := Save(next);
      r := if alive then Ok(next) else Err(Interrupted);
    }

    /** Every file of the manifest in order, then the seal over exactly the receipts just read. */
    method WriteAndSeal(j: Journal) returns (done: bool)
      requires Valid() && journal == Some(j) && j.runId.Some? && j.submissionId.Some?
      requires SealKey(Id(kind, key, j)) !in server.sealed
      modifies this`server
      ensures done ==> SealKey(Id(kind, key, j)) in server.sealed
      ensures Valid() && server.claimed == old(server).claimed
    {
      var id := Id(kind, key, j);
      var files := Files(j.source.manifest);
      var receipts: seq<Receipt> := [];
      assert server.sealed == map[];
      for i := 0 to |files|
        invariant journal == Some(j) && first == old(first) && server.sealed == old(server.sealed) && server.claimed == old(server).claimed
        invariant Kept(j, id, server) && ReceiptsFor(j, id, server, receipts, i)
      {
        ghost var before := server;
        var receipt := WriteFile(id, j.submissionId.value, files[i]);
        WriteKept(j, id, before, server, i, receipts);
        if receipt.None? { return false; }
        receipts := receipts + [Receipt(files[i].path, receipt.value)];
      }
      done := SealReceipts(j, receipts);
    }

    /** The seal over one receipt for every file of the manifest. */
    method SealReceipts(j: Journal, receipts: seq<Receipt>) returns (done: bool)
      requires Valid() && journal == Some(j) && j.runId.Some? && j.submissionId.Some?
      requires ReceiptsFor(j, Id(kind, key, j), server, receipts, |Files(j.source.manifest)|)
      modifies this`server
      ensures done ==> SealKey(Id(kind, key, j)) in server.sealed
      ensures Valid() && server.claimed == old(server).claimed
    {
      done := SealSubmission(Id(kind, key, j), Sealed(j.runId.value, j.submissionId.value, j.source.manifest, receipts));
    }

    method EnsureSealed(j: Journal) returns (r: Result<Journal, Failure>)
      requires Valid() && journal == Some(j) && j.runId.Some?
      modifies this`journal, this`server
      ensures Valid() && first == old(first) && server.claimed == old(server).claimed
      ensures r.Ok? ==> journal == Some(r.value) && r.value.runId == j.runId && r.value.source == j.source && r.value.finalizeRequest.Some?
      ensures j.finalizeRequest.Some? ==> r == Ok(j) && server == old(server)
      ensures r.Err? ==> r.error.KeyReused? || r.error.Interrupted?
    {
      if j.finalizeRequest.Some? { return Ok(j); }
      var bound: bool := *;
      if !bound { return Err(Interrupted); }
      r := EnsureSubmission(j);
      if r.Err? { return; }
      var next := r.value;
      if SealKey(Id(kind, key, next)) !in server.sealed {
        var done := WriteAndSeal(next);
        if !done { return Err(Interrupted); }
      }
      next := next.(finalizeRequest := Some(FinalizeRequest(next.runVersion, next.submissionId.value)));
      var alive := Save(next);
      r := if alive then Ok(next) else Err(Interrupted);
    }

    method Finalize(j: Journal) returns (r: Result<OperationId, Failure>)
      requires Valid() && journal == Some(j) && j.runId.Some? && j.finalizeRequest.Some?
      modifies this`journal, this`server
      ensures Valid() && first == old(first)
      ensures forall k :: k in old(server).claimed ==> k in server.claimed && server.claimed[k] == old(server).claimed[k]
      ensures r.Ok? ==> FinalizeKey(Id(kind, key, j)) in server.claimed && server.claimed[FinalizeKey(Id(kind, key, j))].operation == r.value
      ensures r.Ok? ==> server.claimed[FinalizeKey(Id(kind, key, j))].run == j.runId.value
      ensures r.Ok? ==> journal == Some(j.(operationId := Some(r.value)))
      ensures r.Err? ==> r.error.KeyReused? || r.error.Interrupted?
    {
      var id := Id(kind, key, j);
      var operation: Option<OperationId>;
      if FinalizeKey(id) in server.claimed {
        if server.claimed[FinalizeKey(id)].request != j.finalizeRequest.value { return Err(KeyReused); }
        operation := Some(server.claimed[FinalizeKey(id)].operation);
      } else {
        operation := ClaimFinalization(id, j.runId.value, j.finalizeRequest.value);
        if operation.None? { return Err(Interrupted); }
      }
      var alive := Save(j.(operationId := operation));
      if !alive { return Err(Interrupted); }
      r := Ok(operation.value);
    }

    /** Waiting for the claimed operation, which may have ended or not by the deadline. */
    method Await(operation: OperationId) returns (ending: Option<Ending>)
      modifies this`ended
      ensures forall o :: o in old(ended) ==> o in ended && ended[o] == old(ended)[o]
      ensures ending.Some? <==> operation in ended
      ensures ending.Some? ==> ended[operation] == ending.value
    {
      var ends: bool, how: Ending := *, *;
      if operation !in ended && ends { ended := ended[operation := how]; }
      ending := if operation in ended then Some(ended[operation]) else None;
    }

    /** Everything up to the claimed finalization. */
    method Claim(digest: Request) returns (r: Result<(Journal, OperationId), Failure>)
      requires Valid()
      modifies this`journal, this`server, this`first
      ensures Valid() && (old(first).Some? ==> first == old(first))
      ensures old(journal).Some? && old(journal).value.digest != digest ==>
        r == Err(KeyReused) && journal == old(journal) && server == old(server)
      ensures forall k :: k in old(server).claimed ==> k in server.claimed && server.claimed[k] == old(server).claimed[k]
      ensures r.Ok? ==>
        var j, k := r.value.0, FinalizeKey(Id(kind, key, r.value.0));
        && first == Some(j.source.manifest) && j.runId.Some? && k in server.claimed
        && server.claimed[k].operation == r.value.1 && server.claimed[k].run == j.runId.value
        && (requested.Some? ==> j.runId == requested)
        && journal.Some? && journal.value.operationId == Some(r.value.1)
      ensures r.Err? ==> r.error.KeyReused? || r.error.Interrupted?
    {
      var step := LoadOrCreate(digest);
      if step.Err? { return Err(step.error); }
      step := Externalize(step.value);
      if step.Err? { return Err(step.error); }
      step := EnsureRun(step.value);
      if step.Err? { return Err(step.error); }
      step := EnsureSealed(step.value);
      if step.Err? { return Err(step.error); }
      var operation := Finalize(step.value);
      if operation.Err? { return Err(operation.error); }
      r := Ok((step.value, operation.value));
    }

    /** One attempt, from whatever an earlier one left behind. */
    method PublishSnapshot(digest: Request) returns (r: Result<Published, Failure>)
      requires Valid()
      modifies this
      ensures Valid() && (old(first).Some? ==> first == old(first))
      ensures old(journal).Some? && old(journal).value.digest != digest ==>
        r == Err(KeyReused) && journal == old(journal) && server == old(server) && ended == old(ended)
      ensures r.Ok? ==> Describes(r.value) && (requested.Some? ==> Some(r.value.run) == requested)
      ensures r.Ok? ==> journal.Some? && journal.value.operationId == Some(r.value.operation)
      ensures r == Err(PublicationFailed) ==> ClaimEnded() && ended[journal.value.operationId.value].Failed?
      ensures r == Err(OutcomeUnknown) ==> !ClaimEnded()
      ensures forall p :: old(Describes(p)) ==> Describes(p)
      ensures AtMostOnce(server, first) && ClaimsRequested()
    {
      r := Attempt(digest);
      ConsistentOnce(kind, key, journal, server, first);
    }

    method Attempt(digest: Request) returns (r: Result<Published, Failure>)
      requires Valid()
      modifies this
      ensures Valid() && (old(first).Some? ==> first == old(first))
      ensures old(journal).Some? && old(journal).value.digest != digest ==>
        r == Err(KeyReused) && journal == old(journal) && server == old(server) && ended == old(ended)
      ensures r.Ok? ==> Describes(r.value) && (requested.Some? ==> Some(r.value.run) == requested)
      ensures r.Ok? ==> journal.Some? && journal.value.operationId == Some(r.value.operation)
      ensures r == Err(PublicationFailed) ==> ClaimEnded() && ended[journal.value.operationId.value].Failed?
      ensures r == Err(OutcomeUnknown) ==> !ClaimEnded()
      ensures forall p :: old(Describes(p)) ==> Describes(p)
    {
      var claimed := Claim(digest);
      if claimed.Err? { return Err(claimed.error); }
      var (j, operation) := claimed.value;
      var ending := Await(operation);
      if ending.None? { return Err(OutcomeUnknown); }
      if ending.value.Failed? { return Err(PublicationFailed); }
      r := Ok(Published(j.runId.value, operation, ending.value.revision, Map(PathOf, Files(j.source.manifest))));
      assert ClaimedAs(server.claimed[FinalizeKey(Id(kind, key, j))], r.value);
    }

    /** Two results describe one publication. */
    lemma OneResult(a: Published, b: Published)
      requires Valid() && Describes(a) && Describes(b)
      ensures a == b
    {
      var k :| k in server.claimed && ClaimedAs(server.claimed[k], a);
      var l :| l in server.claimed && ClaimedAs(server.claimed[l], b);
      assert k in server.claimed.Keys && l in server.claimed.Keys;
    }

    /** Any number of attempts with any requests, each cut short anywhere; all that return give the same result. */
    method AnyHistory() returns (results: seq<Published>)
      requires Valid()
      modifies this
      ensures Valid() && AtMostOnce(server, first) && ClaimsRequested()
      ensures old(first).Some? ==> first == old(first)
      ensures forall a, b :: 0 <= a < |results| && 0 <= b < |results| ==> results[a] == results[b]
    {
      results := Attempts();
      ConsistentOnce(kind, key, journal, server, first);
      forall a, b | 0 <= a < |results| && 0 <= b < |results| ensures results[a] == results[b] { OneResult(results[a], results[b]); }
    }

    method Attempts() returns (results: seq<Published>)
      requires Valid()
      modifies this
      ensures Valid() && (old(first).Some? ==> first == old(first))
      ensures forall a :: 0 <= a < |results| ==> Describes(results[a])
    {
      var n: int := *;
      var attempts := if n < 0 then 0 else n;
      results := [];
      for i := 0 to attempts
        invariant Valid() && (old(first).Some? ==> first == old(first))
        invariant forall a :: 0 <= a < |results| ==> Describes(results[a])
      {
        var digest: Request := *;
        var outcome := PublishSnapshot(digest);
        if outcome.Ok? { results := results + [outcome.value]; }
      }
    }
  }

  lemma SourceKept(j: Journal, next: Journal, id: CommandId, server: Server)
    requires Kept(j, id, server) && next == j.(source := next.source) && next.source.manifest == j.source.manifest
    ensures Kept(next, id, server)
  {
  }
}
