/**
 `reconcile` of the TypeScript client and everything it calls, run against a process that can die
 before or after any save, a transport that can lose any response, and a server that may refuse a
 first attempt or deny a retry. Wherever it stops, the outcome of the workflow is still the same, and
 one undisturbed `reconcile` reaches it.
 */
module TypeScriptSession {
  import opened Manifests
  import opened Prelude
  import opened TypeScriptWorkflow

  datatype Exit = Done | Raised | Crashed

  /** What came back for one transmission; Stale is the 4xx that leaves a creation open. */
  datatype Response = Answered | Denied | Stale | Lost

  /** What the server records on accepting the command. */
  function Recorded(server: Server, p: Pending, world: World): Server {
    Server(server.effects + [p.request], server.replies[p.key := Reply(server.effects, p.request, world)])
  }

  /**
   One transmission of a command: what the server made of it and what came back. A recorded key
   replays. A complete 4xx means that this transmission changed nothing, not that an earlier one did
   not; the one exception answers a creation whose processing went stale and may still be accepted.
   */
  predicate Observes(before: Server, p: Pending, after: Server, response: Response, world: World) {
    if p.key in before.replies then after == before && !response.Stale?
    else
      || (after == before && (response.Denied? || response.Lost?))
      || (after == Recorded(before, p, world)
          && (response.Answered? || response.Lost? || (response.Stale? && p.request.CreateWorkspace?)))
  }

  /** A captured workspace is writable and materialized, a refreshing one is not yet, and a finalized run has ended. */
  predicate Shaped(record: Record) {
    && (record.capture.Some? ==> record.materialized && record.mode.ReadWrite?)
    && (record.status.Refreshing? ==> !record.materialized)
    && (record.status.Finalized? || record.status.PublishedNeedsReopen? ==> record.run.Some? && !record.run.value.active)
  }

  /** Nothing is pending and nothing is left to do. */
  predicate Ended(record: Record, world: World) { record.pending.None? && Next(record, world).Stop? }

  /** The publication has begun and has not ended, so `seal` is what comes next. */
  predicate Sealing(record: Record) {
    && Publishing(record) && record.run.Some?
    && (record.workflow.Submit? || (record.mode.ReadWrite? && !(record.lastOperation.Some? && !record.lastOperation.value.succeeded)))
  }

  /** The record after its pending command was answered by a server in some state, and is over. */
  ghost predicate Accepted(before: Record, after: Record, world: World) {
    before.pending.Some? && after.pending.None? && exists effects :: AcceptedIn(effects, before, after, world)
  }

  ghost predicate AcceptedIn(effects: seq<Request>, before: Record, after: Record, world: World)
    requires before.pending.Some?
  {
    ReplyAnswers(effects, before.pending.value.request, world);
    after == Accept(before, before.pending.value.request, Reply(effects, before.pending.value.request, world))
  }

  /** The record after a command prepared on it was answered. */
  ghost predicate Performed(before: Record, request: Request, after: Record, world: World) {
    Accepted(before.(pending := Some(Pending(0, request, Prepared, None))), after, world)
  }

  /** A creation no longer ahead never comes ahead again. */
  lemma NothingComesAhead(before: Record, after: Record, world: World)
    requires Accepted(before, after, world) && Next(Norm(before.(pending := None)), world) == Send(before.pending.value.request)
    ensures CreationAhead(after) ==> CreationAhead(before)
  {
  }

  lemma ShapedStep(record: Record, effects: seq<Request>, world: World)
    requires Shaped(record) && Next(record, world).Send?
    ensures Shaped(StepTo(record, effects, world).0)
  {
  }

  /** The commands of the publication change the submission and its receipts alone. */
  lemma PublishingKeeps(before: Record, request: Request, after: Record, world: World)
    requires before.pending.None? && Publishes(request) && Performed(before, request, after, world)
    ensures after == before.(submission := after.submission, receipts := after.receipts)
    ensures match request
      case CreateSubmission(_) => after.submission.Some? && after.submission.value.digest.None? && after.receipts == before.receipts
      case UploadFile(_, _, entry) =>
        && after.submission == before.submission
        && exists receipt: Receipt :: receipt.path == entry.path && after.receipts == before.receipts + [receipt]
      case SealSubmission(_, _, manifest, _) =>
        && after.submission.Some? && after.submission.value.digest == Some(manifest) && after.receipts == before.receipts
  {
    var effects :| AcceptedIn(effects, before.(pending := Some(Pending(0, request, Prepared, None))), after, world);
    if request.UploadFile? {
      assert Reply(effects, request, world).receipt.path == request.entry.path;
    }
  }

  /** A finished publication is marked as such; only a refused one leaves the workflow, with nothing left to do. */
  lemma AcceptedKeeps(before: Record, after: Record, world: World)
    requires Accepted(before, after, world)
    ensures after.pending.None?
    ensures before.pending.value.request.FinalizeRun? ==>
      (after.status.Finalized? || after.status.PublishedNeedsReopen?) || (after.workflow.Idle? && Ended(after, world))
    ensures before.pending.value.request.OpenRun? && before.workflow.Checkpoint? ==> after.status.Refreshing?
    ensures !after.workflow.Idle? ==> after.workflow == before.workflow
  {
  }

  /** Accepting reads nothing of the command's standing. */
  lemma SameAcceptance(start: Record, begun: Record, after: Record, world: World)
    requires start.pending.Some? && begun.pending.Some? && begun == start.(pending := begun.pending)
    requires begun.pending.value.request == start.pending.value.request && Accepted(begun, after, world)
    ensures Accepted(start, after, world)
  {
    var effects :| AcceptedIn(effects, begun, after, world);
    assert AcceptedIn(effects, start, after, world);
  }

  /** The for loop of `seal` meets the missing files in the order of the manifest. */
  lemma {:induction false} FirstMissing(entries: seq<Entry>, receipts: seq<Receipt>, i: nat)
    requires i <= |entries| && forall j :: 0 <= j < i && entries[j].File? ==> HasReceipt(receipts, entries[j].path)
    ensures i == |entries| ==> NextUpload(entries, receipts).None?
    ensures i < |entries| && entries[i].File? && !HasReceipt(receipts, entries[i].path) ==> NextUpload(entries, receipts) == Some(entries[i])
  {
    if entries != [] && i > 0 { FirstMissing(entries[1..], receipts, i - 1); }
  }

  class LocalWorkspaceSession {
    const world: World
    /** No fault happens while this is set: saves complete, and the server answers. */
    var calm: bool
    /** `this.data`, as the running process holds it. */
    var data: Record
    /** `state.json`, as a restarted process would load it. */
    var durable: Record
    var server: Server
    var nextKey: Key
    /** History variable: an accepted command was dropped as if it had been refused. */
    ghost var blind: bool

    ghost predicate Valid()
      reads this
    {
      Linked(durable, server, world, nextKey) && Shaped(durable)
    }

    /** The running process holds what is on disk. */
    ghost predicate Loaded()
      reads this
    {
      Valid() && data == durable
    }

    /** Nothing is left to do, or the creation that was to begin everything has failed. */
    ghost predicate Over()
      reads this
    {
      Ended(durable, world) || CreationOver(durable, server)
    }

    /** Where the workflow on disk is going to end. */
    ghost function Where(): (Record, seq<Request>)
      reads this
    {
      Outcome(durable, server, world)
    }

    /**
     The workflow still ends in the same place, unless an accepted command was dropped. Nothing is dropped
     that way while there are no faults, nor once no creation is ahead, and none ever comes ahead again.
     */
    twostate predicate Kept()
      reads this
    {
      && (old(blind) ==> blind) && (blind || Where() == old(Where())) && (calm ==> blind == old(blind))
      && (!CreationAhead(old(durable)) ==> !CreationAhead(durable) && blind == old(blind))
    }

    /** A journal with a durable workflow, before anything of it was sent. */
    constructor (record: Record, effects: seq<Request>, world: World)
      requires record.pending.None? && Shaped(record)
      ensures Loaded() && !blind && durable == record && server.effects == effects && this.world == world
    {
      this.world := world;
      data, durable, server, nextKey, calm, blind := record, record, Server(effects, map[]), 0, false, false;
    }

    method Fault() returns (fault: bool)
      ensures calm ==> !fault
    {
      fault := *;
      if calm { fault := false; }
    }

    method Save() returns (crashed: bool)
      modifies this`durable
      ensures durable == data || (crashed && durable == old(durable))
      ensures calm ==> !crashed
    {
      crashed := Fault();
      var replaced: bool := *;
      if !crashed || replaced { durable := data; }
    }

    /** A save of the same command in another standing. */
    method SaveStanding(pending: Pending) returns (crashed: bool)
      requires Loaded() && data.pending.Some?
      requires pending.key == data.pending.value.key && pending.request == data.pending.value.request && !pending.phase.Prepared?
      modifies this`data, this`durable
      ensures Valid() && Where() == old(Where()) && CreationAhead(durable) == CreationAhead(old(durable))
      ensures data == old(data).(pending := Some(pending)) && (!crashed ==> durable == data)
      ensures calm ==> !crashed
    {
      StandingNeutral(data, data.(pending := Some(pending)), server, world);
      data := data.(pending := Some(pending));
      assert data.(pending := None) == durable.(pending := None);
      crashed := Save();
    }

    method Transmit() returns (response: Response)
      requires Loaded() && data.pending.Some? && !data.pending.value.phase.Prepared?
      modifies this`server
      ensures Loaded() && Where() == old(Where())
      ensures Observes(old(server), data.pending.value, server, response, world)
      ensures calm ==> response.Answered?
    {
      var p := data.pending.value;
      var refused := Fault();
      var denied := Fault();
      var stale := Fault();
      var unread := Fault();
      if p.key !in server.replies {
        if refused { return if denied then Denied else Lost; }
        var after := Recorded(server, p, world);
        AcceptedIsNextStep(data, server, after, world, nextKey);
        assert after.effects[..|after.effects| - 1] == server.effects;
        server := after;
        return if unread then Lost else if stale && p.request.CreateWorkspace? then Stale else Answered;
      }
      response := if denied then Denied else if unread then Lost else Answered;
    }

    /** The operation a command started is on disk before the client waits for it. */
    method AwaitOperation(operation: nat) returns (exit: Exit)
      requires Loaded() && data.pending.Some? && !data.pending.value.phase.Prepared?
      modifies this`data, this`durable
      ensures Valid() && Where() == old(Where()) && CreationAhead(durable) == CreationAhead(old(durable)) && (!exit.Crashed? ==> data == durable) && (calm ==> exit.Done?)
      ensures data.pending.Some? && data == old(data).(pending := data.pending)
      ensures data.pending.value.key == old(data).pending.value.key && data.pending.value.request == old(data).pending.value.request
    {
      var crashed := SaveStanding(data.pending.value.(operationId := Some(operation)));
      if crashed { return Crashed; }
      var cut := Fault();
      if !cut { return Done; }
      exit := Uncertain();
    }

    /** A lost response: the command is kept under its key. */
    method Uncertain() returns (exit: Exit)
      requires Loaded() && data.pending.Some?
      modifies this`data, this`durable
      ensures Valid() && Where() == old(Where()) && CreationAhead(durable) == CreationAhead(old(durable)) && !exit.Done? && (!exit.Crashed? ==> data == durable)
      ensures data.pending.Some? && data == old(data).(pending := data.pending)
      ensures data.pending.value.key == old(data).pending.value.key && data.pending.value.request == old(data).pending.value.request
    {
      var crashed := SaveStanding(data.pending.value.(phase := OutcomeUnknown));
      exit := if crashed then Crashed else Raised;
    }

    /** Reading the recorded answer into the journal. A refused publication is saved and then raised; a failed creation is raised and kept. */
    method Absorb() returns (exit: Exit)
      requires Loaded() && data.pending.Some? && data.pending.value.key in server.replies
      modifies this`data, this`durable
      ensures Valid() && Kept() && blind == old(blind) && (!exit.Crashed? ==> data == durable)
      ensures exit.Done? ==> Accepted(old(data), data, world)
      ensures exit.Done? ==> !data.workflow.Idle?
      ensures calm ==> exit.Done? || (exit.Raised? && Over())
    {
      var p := data.pending.value;
      if p.request.CreateWorkspace? && server.replies[p.key].CreationFailed? { return Raised; }
      ghost var before := server.effects[..|server.effects| - 1];
      ghost var start := data;
      ReplyAnswers(before, p.request, world);
      ReadingNeutral(data, server, world);
      ghost var bare := data.(pending := None);
      NormNext(bare, world);
      ShapedStep(bare, before, world);
      var after := Accept(data, p.request, server.replies[p.key]);
      assert after == Accept(bare, p.request, server.replies[p.key]);
      assert AcceptedIn(before, start, after, world);
      AcceptedKeeps(start, after, world);
      NothingComesAhead(start, after, world);
      data := after;
      var crashed := Save();
      if crashed { return Crashed; }
      exit := if p.request.FinalizeRun? && data.workflow.Idle? then Raised else Done;
    }

    /** A first rejection drops the command, to be prepared afresh. That is blind exactly when it was accepted after all. */
    method Drop() returns (exit: Exit)
      requires Loaded() && data.pending.Some?
      modifies this`data, this`durable, this`blind
      ensures Valid() && !exit.Done? && (!exit.Crashed? ==> data == durable)
      ensures CreationAhead(durable) == CreationAhead(old(durable))
      ensures blind <==> old(blind) || old(data).pending.value.key in server.replies
      ensures blind || Where() == old(Where())
    {
      DropNeutralExactly(data, server, world, nextKey);
      blind := blind || data.pending.value.key in server.replies;
      data := data.(pending := None);
      assert data.(pending := None) == data;
      var crashed := Save();
      exit := if crashed then Crashed else Raised;
    }

    /** What becomes of the command after one transmission; `first` says that there was none before. */
    method Conclude(first: bool, response: Response) returns (exit: Exit)
      requires Loaded() && data.pending.Some? && !data.pending.value.phase.Prepared?
      requires response.Answered? ==> data.pending.value.key in server.replies
      requires calm ==> response.Answered?
      requires first && (response.Denied? || response.Stale?) && data.pending.value.key in server.replies ==>
        data.pending.value.request.CreateWorkspace?
      modifies this`data, this`durable, this`blind
      ensures Valid() && Kept() && (!exit.Crashed? ==> data == durable)
      ensures blind ==> old(blind) || old(data).pending.value.request.CreateWorkspace?
      ensures exit.Done? ==> Accepted(old(data), data, world) && !data.workflow.Idle?
      ensures calm ==> exit.Done? || (exit.Raised? && Over())
    {
      ghost var start := data;
      var request := data.pending.value.request;
      if response.Lost? {
        exit := Uncertain();
        return;
      }
      if response.Denied? || response.Stale? {
        if first { exit := Drop(); } else { exit := Raised; }
        return;
      }
      if request.FinalizeRun? || request.CreateWorkspace? {
        var operation: nat := *;
        exit := AwaitOperation(operation);
        if !exit.Done? { return; }
      }
      ghost var begun := data;
      exit := Absorb();
      if exit.Done? { SameAcceptance(start, begun, data, world); }
    }

    method Dispatch() returns (exit: Exit)
      requires Loaded() && data.pending.Some?
      modifies this`data, this`durable, this`server, this`blind
      ensures Valid() && Kept() && (!exit.Crashed? ==> data == durable)
      ensures blind ==> old(blind) || old(data).pending.value.request.CreateWorkspace?
      ensures exit.Done? ==> Accepted(old(data), data, world) && !data.workflow.Idle?
      ensures calm ==> exit.Done? || (exit.Raised? && Over())
    {
      ghost var start := data;
      var pending := data.pending.value;
      var first := pending.phase.Prepared? && pending.operationId.None?;
      var crashed := SaveStanding(pending.(phase := if pending.phase.Prepared? then Dispatched else pending.phase));
      if crashed { return Crashed; }
      var response := Transmit();
      var dies := Fault();
      if dies { return Crashed; }
      ghost var begun := data;
      exit := Conclude(first, response);
      if exit.Done? { SameAcceptance(start, begun, data, world); }
    }

    /** `prepare` and `dispatch` of the program's next command. */
    method Command(request: Request) returns (exit: Exit)
      requires Loaded() && data.pending.None? && Next(data, world) == Send(request)
      modifies this`data, this`durable, this`server, this`blind, this`nextKey
      ensures Valid() && Kept() && (!exit.Crashed? ==> data == durable)
      ensures exit.Done? ==> Performed(old(data), request, data, world)
      ensures exit.Done? ==> !data.workflow.Idle?
      ensures calm ==> exit.Done? || (exit.Raised? && Over())
    {
      var prepared := data.(pending := Some(Pending(nextKey, request, Prepared, None)));
      PrepareNeutral(data, prepared, server, world);
      NormNext(data, world);
      assert prepared.(pending := None) == data;
      ghost var start := data;
      nextKey := nextKey + 1;
      data := prepared;
      var crashed := Save();
      if crashed { return Crashed; }
      exit := Dispatch();
      if exit.Done? { SameAcceptance(start.(pending := Some(Pending(0, request, Prepared, None))), prepared, data, world); }
    }

    /** A local step of the program, saved. */
    method Advance(after: Record) returns (exit: Exit)
      requires Loaded() && data.pending.None? && after.pending.None? && Shaped(after)
      requires Next(Norm(data), world) == Local(Norm(after))
      modifies this`data, this`durable
      ensures Valid() && Kept() && blind == old(blind) && data == after && !exit.Raised?
      ensures (exit.Done? ==> data == durable) && (calm ==> exit.Done?)
    {
      LocalNeutral(data, after, server, world);
      if CreationAhead(after) { LocalAhead(Norm(data), world, CreateWorkspace); }
      data := after;
      var crashed := Save();
      exit := if crashed then Crashed else Done;
    }

    /** The pending command, whichever it is, is dispatched first. */
    method Settle() returns (exit: Exit)
      requires Loaded()
      modifies this`data, this`durable, this`server, this`blind
      ensures Valid() && Kept() && (!exit.Crashed? ==> data == durable)
      ensures exit.Done? ==> data.pending.None? && data.workflow == old(data).workflow
      ensures exit.Done? && old(data).pending.None? ==> data == old(data)
      ensures exit.Done? && old(data).pending.Some? ==> Accepted(old(data), data, world)
      ensures calm ==> exit.Done? || (exit.Raised? && Over())
    {
      if data.pending.None? { return Done; }
      ghost var start := data;
      exit := Dispatch();
      if exit.Done? { AcceptedKeeps(start, data, world); }
    }

    // ---------------------------------------------------------------- publishing

    method CaptureOnce() returns (exit: Exit)
      requires Loaded() && data.pending.None? && Sealing(data)
      modifies this`data, this`durable
      ensures Valid() && Kept() && (!exit.Crashed? ==> data == durable)
      ensures exit.Done? ==> data == old(data).(capture := data.capture) && data.capture.Some?
      ensures old(data).capture.Some? ==> data == old(data)
      ensures calm ==> exit.Done? || (exit.Raised? && Over())
    {
      if data.mode.ReadOnly? { return Raised; }
      if data.capture.Some? { return Done; }
      if !(data.run.value.active && data.materialized) { return Raised; }
      var id: nat := *;
      exit := Advance(CaptureNow(data, world, id));
    }

    /** The files of the captured manifest without a receipt, one command each. */
    method UploadMissing() returns (exit: Exit)
      requires Loaded() && data.pending.None? && Sealing(data) && data.capture.Some?
      requires data.submission.Some? && data.submission.value.digest.None?
      modifies this`data, this`durable, this`server, this`blind, this`nextKey
      ensures Valid() && Kept() && (!exit.Crashed? ==> data == durable)
      ensures exit.Done? ==> data == old(data).(receipts := data.receipts)
      ensures exit.Done? ==> NextUpload(data.capture.value.manifest, data.receipts).None?
      ensures calm ==> exit.Done? || (exit.Raised? && Over())
    {
      ghost var start := data;
      var captured := data.capture.value;
      var submission := data.submission.value;
      var entries := captured.manifest;
      for i := 0 to |entries|
        invariant Loaded() && Kept() && data.pending.None?
        invariant data == start.(receipts := data.receipts)
        invariant forall j :: 0 <= j < i && entries[j].File? ==> HasReceipt(data.receipts, entries[j].path)
      {
        FirstMissing(entries, data.receipts, i);
        if entries[i].File? && !HasReceipt(data.receipts, entries[i].path) {
          ghost var before := data;
          var request := UploadFile(data.run.value.id, submission.id, entries[i]);
          exit := Command(request);
          if !exit.Done? { return; }
          PublishingKeeps(before, request, data, world);
          ghost var receipt: Receipt :| receipt.path == entries[i].path && data.receipts == before.receipts + [receipt];
          forall j | 0 <= j <= i && entries[j].File? ensures HasReceipt(data.receipts, entries[j].path) {
            ReceiptAdded(before.receipts, receipt, entries[j].path);
          }
        }
      }
      FirstMissing(entries, data.receipts, |entries|);
      exit := Done;
    }

    /** The submission of the captured run, created unless it exists. */
    method Create() returns (exit: Exit)
      requires Loaded() && data.pending.None? && Sealing(data) && data.capture.Some?
      modifies this`data, this`durable, this`server, this`blind, this`nextKey
      ensures Valid() && Kept() && (!exit.Crashed? ==> data == durable)
      ensures exit.Done? ==> data == old(data).(submission := data.submission) && data.submission.Some?
      ensures calm ==> exit.Done? || (exit.Raised? && Over())
    {
      if data.submission.Some? { return Done; }
      ghost var before := data;
      var request := CreateSubmission(data.run.value.id);
      exit := Command(request);
      if exit.Done? { PublishingKeeps(before, request, data, world); }
    }

    /** The seal of everything uploaded. */
    method Close() returns (exit: Exit)
      requires Loaded() && data.pending.None? && Sealing(data) && data.capture.Some?
      requires data.submission.Some? && data.submission.value.digest.None?
      requires NextUpload(data.capture.value.manifest, data.receipts).None?
      modifies this`data, this`durable, this`server, this`blind, this`nextKey
      ensures Valid() && Kept() && (!exit.Crashed? ==> data == durable)
      ensures exit.Done? ==> data == old(data).(submission := data.submission) && SealedAsCaptured(data)
      ensures calm ==> exit.Done? || (exit.Raised? && Over())
    {
      ghost var before := data;
      var request := SealSubmission(data.run.value.id, data.submission.value.id, data.capture.value.manifest, data.receipts);
      exit := Command(request);
      if exit.Done? { PublishingKeeps(before, request, data, world); }
    }

    /** The pending command settled and the run captured. */
    method Take() returns (exit: Exit)
      requires Loaded() && (data.workflow.Submit? || (data.pending.None? && Sealing(data)))
      modifies this`data, this`durable, this`server, this`blind
      ensures Valid() && Kept() && (!exit.Crashed? ==> data == durable)
      ensures exit.Done? ==> data.pending.None? && Sealing(data) && data.capture.Some? && data.workflow == old(data).workflow
      ensures calm ==> exit.Done? || (exit.Raised? && Over())
    {
      exit := Settle();
      if !exit.Done? { return; }
      if data.run.None? { return Raised; }
      exit := CaptureOnce();
    }

    method Seal() returns (exit: Exit)
      requires Loaded() && (data.workflow.Submit? || (data.pending.None? && Sealing(data)))
      modifies this`data, this`durable, this`server, this`blind, this`nextKey
      ensures Valid() && Kept() && (!exit.Crashed? ==> data == durable)
      ensures exit.Done? ==> data.pending.None? && SealedAsCaptured(data) && Sealing(data) && data.workflow == old(data).workflow
      ensures calm ==> exit.Done? || (exit.Raised? && Over())
    {
      exit := Take();
      if !exit.Done? { return; }
      exit := Create();
      if !exit.Done? { return; }
      if data.submission.value.digest.Some? {
        return if SealedAsCaptured(data) then Done else Raised;
      }
      exit := UploadMissing();
      if !exit.Done? { return; }
      exit := Close();
    }

    // ---------------------------------------------------------------- finishing and reopening

    /** A pending command of an unfinished publication does not open the next run. */
    lemma NotReopening(record: Record)
      requires Linked(record, server, world, nextKey) && record.pending.Some?
      requires record.workflow.Finalize? || (record.workflow.Checkpoint? && !record.status.PublishedNeedsReopen?)
      ensures !record.pending.value.request.OpenRun? && !record.pending.value.request.CreateWorkspace?
    {
    }

    method SettlePublication() returns (exit: Exit)
      requires Loaded() && (data.workflow.Finalize? || data.workflow.Checkpoint?)
      requires data.workflow.Checkpoint? ==> !data.status.PublishedNeedsReopen? && !data.status.Refreshing?
      modifies this`data, this`durable, this`server, this`blind
      ensures Valid() && Kept() && (!exit.Crashed? ==> data == durable)
      ensures exit.Done? ==> data.pending.None? && data.workflow == old(data).workflow
      ensures exit.Done? && data.workflow.Checkpoint? ==> !data.status.Refreshing?
      ensures calm ==> exit.Done? || (exit.Raised? && Over())
    {
      if data.pending.Some? { NotReopening(data); }
      exit := Settle();
    }

    /** `prepare` and `dispatch` of the finalization. */
    method Publish() returns (exit: Exit)
      requires Loaded() && data.pending.None? && Publishing(data) && !data.workflow.Submit? && data.run.Some?
      requires !(data.lastOperation.Some? && !data.lastOperation.value.succeeded)
      requires data.mode.ReadWrite? ==> SealedAsCaptured(data)
      modifies this`data, this`durable, this`server, this`blind, this`nextKey
      ensures Valid() && Kept() && (!exit.Crashed? ==> data == durable)
      ensures exit.Done? ==> data.pending.None? && data.workflow == old(data).workflow && (data.status.Finalized? || data.status.PublishedNeedsReopen?)
      ensures calm ==> exit.Done? || (exit.Raised? && Over())
    {
      ghost var before := data;
      var selected := if data.mode.ReadWrite? then Some(data.submission.value.id) else None;
      var request := FinalizeRun(data.run.value.id, data.run.value.version, selected);
      exit := Command(request);
      if exit.Done? { AcceptedKeeps(before.(pending := Some(Pending(0, request, Prepared, None))), data, world); }
    }

    /** Ends the publication; a refused one was saved and is raised again. */
    method Finish() returns (exit: Exit)
      requires Loaded() && (data.workflow.Finalize? || data.workflow.Checkpoint?)
      requires data.workflow.Checkpoint? ==> !data.status.PublishedNeedsReopen? && !data.status.Refreshing?
      modifies this`data, this`durable, this`server, this`blind, this`nextKey
      ensures Valid() && Kept() && (!exit.Crashed? ==> data == durable)
      ensures exit.Done? ==> data.pending.None? && data.workflow == old(data).workflow && (data.status.Finalized? || data.status.PublishedNeedsReopen?)
      ensures calm ==> exit.Done? || (exit.Raised? && Over())
    {
      exit := SettlePublication();
      if !exit.Done? { return; }
      if data.status.Finalized? || data.status.PublishedNeedsReopen? { return Done; }
      if data.lastOperation.Some? && !data.lastOperation.value.succeeded { return Raised; }
      if data.run.None? { return Raised; }
      var unread := Fault();
      if unread { return Raised; }
      if data.mode.ReadWrite? {
        exit := Seal();
        if !exit.Done? { return; }
      }
      exit := Publish();
    }

    /** The workspace is written afresh; a failure leaves it to be written again. */
    method Hydrate() returns (exit: Exit)
      requires Loaded() && data.pending.None? && Next(data, world) == Local(Hydrated(data)) && !data.materialized
      modifies this`data, this`durable
      ensures Valid() && Kept() && (!exit.Crashed? ==> data == durable)
      ensures exit.Done? ==> Ended(data, world)
      ensures calm ==> exit.Done?
    {
      var crashed := Save();
      if crashed { return Crashed; }
      var failed := Fault();
      if failed {
        crashed := Save();
        return if crashed then Crashed else Raised;
      }
      NormNext(data, world);
      exit := Advance(Hydrated(data));
    }

    method Reopen() returns (exit: Exit)
      requires Loaded() && data.workflow.Checkpoint?
      requires data.pending.None? ==> data.status.Finalized? || data.status.PublishedNeedsReopen? || data.status.Refreshing?
      requires data.pending.Some? ==> data.pending.value.request.OpenRun?
      modifies this`data, this`durable, this`server, this`blind, this`nextKey
      ensures Valid() && Kept() && (!exit.Crashed? ==> data == durable)
      ensures exit.Done? ==> Ended(data, world)
      ensures calm ==> exit.Done? || (exit.Raised? && Over())
    {
      ghost var start := data;
      exit := Settle();
      if !exit.Done? { return; }
      if start.pending.Some? { AcceptedKeeps(start, data, world); }
      if data.status.Finalized? {
        var receipt := if data.run.Some? then Some(data.run.value.id) else None;
        NormNext(data, world);
        exit := Advance(data.(checkpointReceipt := receipt, status := PublishedNeedsReopen));
        if !exit.Done? { return; }
      }
      if data.status.PublishedNeedsReopen? {
        if data.workspace.None? { return Raised; }
        ghost var before := data;
        var request := OpenRun(data.workspace.value);
        exit := Command(request);
        if !exit.Done? { return; }
        AcceptedKeeps(before.(pending := Some(Pending(0, request, Prepared, None))), data, world);
      }
      exit := Hydrate();
    }

    // ---------------------------------------------------------------- reconciling

    method Opening() returns (exit: Exit)
      requires Loaded() && data.workflow.Opening?
      modifies this`data, this`durable, this`server, this`blind, this`nextKey
      ensures Valid() && Kept() && (!exit.Crashed? ==> data == durable)
      ensures exit.Done? ==> Ended(data, world)
      ensures calm ==> exit.Done? || (exit.Raised? && Over())
    {
      exit := Settle();
      if !exit.Done? { return; }
      if data.workspace.None? {
        exit := Open(CreateWorkspace);
        if !exit.Done? { return; }
      }
      if data.run.None? {
        exit := Open(OpenRun(data.workspace.value));
        if !exit.Done? { return; }
      }
      if data.materialized { return Done; }
      exit := Hydrate();
    }

    /** A command of the opening, with what its acceptance settles. */
    method Open(request: Request) returns (exit: Exit)
      requires Loaded() && data.pending.None? && (data.workflow.Opening? || data.workflow.Creating?)
      requires Next(data, world) == Send(request)
      modifies this`data, this`durable, this`server, this`blind, this`nextKey
      ensures Valid() && Kept() && (!exit.Crashed? ==> data == durable)
      ensures exit.Done? ==> data.pending.None? && data.workflow == old(data).workflow && data.workspace.Some?
      ensures exit.Done? && request.OpenRun? ==> data.run.Some?
      ensures calm ==> exit.Done? || (exit.Raised? && Over())
    {
      ghost var before := data;
      exit := Command(request);
      if exit.Done? { AcceptedKeeps(before.(pending := Some(Pending(0, request, Prepared, None))), data, world); }
    }

    method Creating() returns (exit: Exit)
      requires Loaded() && data.workflow.Creating?
      modifies this`data, this`durable, this`server, this`blind, this`nextKey
      ensures Valid() && Kept() && (!exit.Crashed? ==> data == durable)
      ensures exit.Done? ==> Ended(data, world)
      ensures calm ==> exit.Done? || (exit.Raised? && Over())
    {
      exit := Settle();
      if !exit.Done? { return; }
      if data.workspace.None? {
        exit := Open(CreateWorkspace);
        if !exit.Done? { return; }
      }
      var crashed := Save();
      exit := if crashed then Crashed else Done;
    }

    /** The end of a publication workflow that does not continue. */
    method Rest() returns (exit: Exit)
      requires Loaded() && data.pending.None? && Next(data, world) == Local(data.(workflow := Idle))
      requires data.run.Some? && (data.materialized || !data.run.value.active)
      modifies this`data, this`durable
      ensures Valid() && Kept() && (!exit.Crashed? ==> data == durable)
      ensures exit.Done? ==> Ended(data, world)
      ensures calm ==> exit.Done?
    {
      NormNext(data, world);
      exit := Advance(data.(workflow := Idle));
    }

    /**
     Wherever it stops, the workflow is still going to end in the same place; when it returns, or when
     nothing disturbs it, the workflow has ended there.
     */
    method Reconcile() returns (exit: Exit)
      requires Loaded()
      modifies this`data, this`durable, this`server, this`blind, this`nextKey
      ensures Valid() && Kept() && (!exit.Crashed? ==> data == durable)
      ensures exit.Done? || calm ==> Over() && (Norm(durable), server.effects) == Where()
    {
      match data.workflow {
        case Creating => exit := Creating();
        case Opening => exit := Opening();
        case Checkpoint =>
          exit := Done;
          if !data.status.PublishedNeedsReopen? && !data.status.Refreshing? { exit := Finish(); }
          if exit.Done? { exit := Reopen(); }
        case Finalize =>
          exit := Finish();
          if exit.Done? { exit := Rest(); }
        case Submit =>
          exit := Seal();
          if exit.Done? { exit := Rest(); }
        case Idle =>
          exit := Done;
          if !data.materialized && data.run.Some? && data.run.value.active { exit := Hydrate(); }
      }
      if exit.Done? || calm { StoppedIsOutcome(durable, server, world); }
    }

    /** A restarted process. */
    method Resume()
      requires Valid()
      modifies this`data
      ensures Loaded()
    {
      data := durable;
    }
  }

  /**
   Crash equivalence. A workflow that is durable and then disturbed in any way, any number of times,
   ends under one undisturbed `reconcile` with the journal and the server's history of a run that was
   never disturbed; and that history gained no step twice, published one snapshot and finalized the
   submission sealed with it. The one exception
   is a creation dropped on a 4xx that left it open, so there is none when no creation is ahead.
   */
  method AnyHistory(record: Record, history: seq<Request>, world: World)
    returns (session: LocalWorkspaceSession, ghost added: seq<Request>)
    requires record.pending.None? && Shaped(record)
    ensures session.Over()
    ensures !CreationAhead(record) ==> !session.blind
    ensures session.blind || (Norm(session.durable), session.server.effects) == Complete(Norm(record), history, world)
    ensures session.blind || (session.server.effects == history + added && NoStepTwice(added))
    ensures forall i :: 0 <= i < |added| ==> Due(record, world, added[i])
    ensures WellReceived(record, world) ==> forall i :: 0 <= i < |added| ==> Addressed(record, |history|, world, added, i)
  {
    session := new LocalWorkspaceSession(record, history, world);
    assert record.(pending := None) == record;
    assert session.Where() == Complete(Norm(record), history, world);
    var attempts: int := *;
    while attempts > 0
      invariant session.Valid() && session.world == world
      invariant !CreationAhead(record) ==> !CreationAhead(session.durable) && !session.blind
      invariant session.blind || session.Where() == Complete(Norm(record), history, world)
    {
      session.calm := *;
      session.Resume();
      var _ := session.Reconcile();
      attempts := attempts - 1;
    }
    session.calm := true;
    session.Resume();
    var _ := session.Reconcile();
    added := CompletionOnce(Norm(record), history, world);
    forall i | 0 <= i < |added| ensures Due(record, world, added[i]) { assert Due(Norm(record), world, added[i]); }
    if WellReceived(record, world) {
      assert WellReceived(Norm(record), world);
      forall i | 0 <= i < |added| ensures Addressed(record, |history|, world, added, i) { NormAddressed(record, |history|, world, added, i); }
    }
  }

  lemma NormAddressed(record: Record, base: nat, world: World, added: seq<Request>, i: nat)
    requires i < |added| && Addressed(Norm(record), base, world, added, i)
    ensures Addressed(record, base, world, added, i)
  {
  }

  /**
   Where a creation is ahead the exception does happen: it is prepared, sent, accepted and answered with
   the 4xx that leaves it open; dropped, prepared again, sent and accepted again. What was to be done
   once is done twice.
   */
  lemma CreationTwice(record: Record, effects: seq<Request>, world: World)
    returns (first: Pending, once: Server, second: Pending, twice: Server, rest: seq<Request>)
    requires record.pending.None? && CreationAhead(record)
    ensures first == Pending(0, CreateWorkspace, Dispatched, None) && second == Pending(1, CreateWorkspace, Dispatched, None)
    ensures Linked(record.(pending := Some(first)), Server(effects, map[]), world, 1)
      && Observes(Server(effects, map[]), first, once, Stale, world)
    ensures Linked(record.(pending := Some(first)), once, world, 1) && Linked(record, once, world, 1)
    ensures Linked(record.(pending := Some(second)), once, world, 2) && Observes(once, second, twice, Answered, world)
    ensures Linked(record.(pending := Some(second)), twice, world, 2)
    ensures twice.effects == effects + [CreateWorkspace, CreateWorkspace]
    ensures Complete(Norm(record), effects, world).1 == effects + [CreateWorkspace] + rest && CreateWorkspace !in rest
  {
    var start := Server(effects, map[]);
    first, second := Pending(0, CreateWorkspace, Dispatched, None), Pending(1, CreateWorkspace, Dispatched, None);
    once := Recorded(start, first, world);
    twice := Recorded(once, second, world);
    assert once.effects[..|once.effects| - 1] == effects && twice.effects[..|twice.effects| - 1] == once.effects;
    assert record.(pending := Some(first)).(pending := None) == record == record.(pending := Some(second)).(pending := None);
    assert effects + [CreateWorkspace] + [CreateWorkspace] == effects + [CreateWorkspace, CreateWorkspace];
    var held := record.(pending := Some(first));
    rest := AcceptedOnce(held, once, world, 1);
    AcceptedIsNextStep(held, start, once, world, 1);
    assert Outcome(held, start, world) == Complete(Norm(record), effects, world);
  }
}
