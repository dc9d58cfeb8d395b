/**
 `LocalWorkspace` of the Python client. Every public operation is run against a process that
 can die before or after any journal replacement and any transmission, and against a
 transport that can lose any response; whatever happens, the journal on disk stays Good.
 */
module PythonSession {
  import opened Prelude
  import opened Exchange
  import opened Protocol
  import opened PythonJournal
  import opened PythonInvariant
  import opened PythonGrounds

  /** What one transmission did at the server and what came back for it. */
  predicate Observes(request: Request, key: Key, fate: Fate, reply: Reply) {
    match reply
    case Answered(value) => fate.Accepted? && (Answers(request, key, value) || StartsOperation(request, value))
    case Threw(failure) => ThrownByTransport(failure) && (CleanRejection(request, failure) ==> fate.Refused?)
  }

  const ResponseLost := Failure(503, PublicationOutcomeUnknown, 0, None, false, true)

  /** `after` is the journal once the pending command of `before` was dispatched and accepted. */
  ghost predicate Completes(before: Record, operation: Option<OperationId>, value: Value, after: Record) {
    && before.pending.Some?
    && Answers(before.pending.value.request, before.pending.value.key, value)
    && !SealMismatch(before, value)
    && after == Accept(WithOperation(Begin(before), operation), value)
  }

  // ---------------------------------------------------------------- what the journal forgets

  /** An accepted command after whose answer the journal is good, and knows the key neither as pending nor as settled. */
  ghost predicate Forgets(before: Record, sends: seq<Sent>, next: Key, failure: Failure, after: Record)
    requires before.pending.Some?
  {
    var p := before.pending.value;
    && Observes(p.request, p.key, Accepted, Threw(failure))
    && Good(after, sends + [Send(p.key, p.request, RunIdOf(before), Accepted, None)], next)
    && after.pending.None? && p.key !in after.history.settled && p.key in after.history.blind
  }

  /** Whatever drops a command blindly may drop an accepted one. */
  lemma BlindDropForgets(record: Record, sends: seq<Sent>, next: Key, failure: Failure, lookup: Lookup)
    requires Good(record, sends, next) && Begun(record) && LooksUp(record, lookup) && ThrownByTransport(failure)
    requires DroppedBlindly(record, false, failure, lookup)
    ensures Forgets(record, sends, next, failure, Fail(record, false, failure, lookup))
  {
    var p := record.pending.value;
    var sent := Send(p.key, p.request, RunIdOf(record), Accepted, None);
    BlindDropExactly(record, false, failure, lookup);
    assert PublicationRequest(p.request) ==> record.history.abortFrom.None?;
    TransmitKeeps(record, sends, next, sent);
    FailKeeps(record, sends + [sent], next, false, failure, lookup);
    FailGrounds(record, false, failure, lookup);
  }

  /** A creation that a newer fence accepts after the one that answered went stale. */
  lemma StaleCreationForgotten(record: Record, sends: seq<Sent>, next: Key)
    requires Good(record, sends, next) && Begun(record)
    requires record.pending.value.request.CreateWorkspace? && record.pending.value.operationId.None?
    ensures var failure := Failure(409, StaleFence, 409, None, false, false);
      Forgets(record, sends, next, failure, Fail(record, false, failure, LookupFailed))
  {
    var failure := Failure(409, StaleFence, 409, None, false, false);
    BlindDropExactly(record, false, failure, LookupFailed);
    BlindDropForgets(record, sends, next, failure, LookupFailed);
  }

  /** A seal whose acceptance is answered with INVALID_TRANSITION and no 4xx status; the server itself always sends 409 with this code. */
  lemma MisreportedSealForgotten(record: Record, sends: seq<Sent>, next: Key, run: Run)
    requires Good(record, sends, next) && Begun(record) && record.run == Some(run)
    requires record.pending.value.request.SealSubmission? && record.pending.value.operationId.None?
    ensures var failure := Failure(500, InvalidTransition, 500, None, false, false);
      Forgets(record, sends, next, failure, Fail(record, false, failure, Remote(run.(state := ExpiredRun))))
  {
    var failure := Failure(500, InvalidTransition, 500, None, false, false);
    var lookup := Remote(run.(state := ExpiredRun));
    BlindDropExactly(record, false, failure, lookup);
    BlindDropForgets(record, sends, next, failure, lookup);
  }

  /** A completed command leaves every publication where it can be. */
  lemma CompletionUnderway(before: Record, operation: Option<OperationId>, value: Value, after: Record)
    requires Coherent(before) && Completes(before, operation, value, after)
    requires before.pending.value.key !in before.history.settled
    ensures StaysUnderway(before, after)
  {
    forall run, checkpoint | Underway(before, run, checkpoint) ensures Underway(after, run, checkpoint) {
      BegunUnderway(before, operation, run, checkpoint);
      AcceptUnderway(WithOperation(Begin(before), operation), value, run, checkpoint);
    }
  }

  // ---------------------------------------------------------------- the measure of the advance loop

  function PhaseRank(phase: Phase): nat {
    match phase
    case SubmissionCreate => 9
    case Uploading => 8
    case Sealing => 7
    case Finalizing => 6
    case Creating => 5
    case Opening | PublishedNeedsReopen => 4
    case Hydrating => 3
    case Ready => 2
    case Aborted => 0
    case _ => 1
  }

  function EntriesLeft(record: Record): nat {
    if record.phase.Uploading? && record.capture.Some? && record.uploadIndex < |record.capture.value.manifest|
    then |record.capture.value.manifest| - record.uploadIndex else 0
  }

  /** A lease renewal still to be dispatched delays the phase's own command, which a prepared command no longer does. */
  function PendingRank(record: Record): nat {
    if record.pending.None? then 1
    else if record.pending.value.request.RenewLease? then 2
    else 0
  }

  /** The pending upload is within the capture. */
  predicate UploadInRange(record: Record) {
    record.pending.Some? && record.pending.value.request.UploadFile? && record.capture.Some? ==>
      record.uploadIndex < |record.capture.value.manifest|
  }

  lemma GoodUploadInRange(record: Record, sends: seq<Sent>, next: Key)
    requires Good(record, sends, next)
    ensures UploadInRange(record)
  {
    if record.pending.Some? {
      assert Describes(record.history, record.pending.value.request);
    }
  }

  lemma CompletionDescends(before: Record, operation: Option<OperationId>, value: Value, after: Record)
    requires Coherent(before) && UploadInRange(before) && Completes(before, operation, value, after)
    requires before.pending.value.request.UploadFile? ==> before.capture.Some?
    ensures after.pending.None? && after.abandoned == before.abandoned && Descends(before, after)
    ensures before.pending.value.request.AbortRun? ==> after.phase.Aborted?
    ensures before.pending.value.request.RenewLease? ==> after.phase == before.phase
  {
    if before.pending.value.request.UploadFile? {
      assert before.phase.Uploading?;
    }
  }

  /** What a dispatch that returns has done to its command: the answer is accepted, and the workflow has moved down. */
  ghost predicate Carried(before: Record, after: Record) {
    && (exists operation, value :: Completes(before, operation, value, after))
    && before.pending.Some? && after.pending.None? && after.abandoned == before.abandoned
    && Descends(before, after) && StaysUnderway(before, after)
    && after.history.settled == before.history.settled + {before.pending.value.key}
    && (before.pending.value.request.AbortRun? ==> after.phase.Aborted?)
    && (before.pending.value.request.RenewLease? ==> after.phase == before.phase)
  }

  lemma Dispatchable(record: Record, sends: seq<Sent>, next: Key)
    requires Good(record, sends, next) && record.pending.Some?
    ensures Coherent(record) && UploadInRange(record) && record.pending.value.key !in record.history.settled
  {
    GoodUploadInRange(record, sends, next);
  }

  lemma CompletionDispatches(before: Record, operation: Option<OperationId>, value: Value, after: Record)
    requires Coherent(before) && UploadInRange(before) && before.pending.Some? && before.pending.value.key !in before.history.settled
    requires var begun := WithOperation(Begin(before), operation);
      && Answers(begun.pending.value.request, begun.pending.value.key, value) && !SealMismatch(begun, value)
      && after == Accept(begun, value) && (begun.pending.value.request.UploadFile? ==> begun.capture.Some?)
    ensures Carried(before, after)
    ensures before.pending.value.request.RenewLease? || before.pending.value.request.AbortRun? ==>
              value.RunView? && after.run == Some(value.run)
  {
    var begun := WithOperation(Begin(before), operation);
    assert SealMismatch(begun, value) == SealMismatch(before, value);
    assert Completes(before, operation, value, after);
    CompletionDescends(before, operation, value, after);
    CompletionUnderway(before, operation, value, after);
    if before.pending.value.request.RenewLease? || before.pending.value.request.AbortRun? { AcceptView(begun, value); }
  }

  /** Transmissions are only added, and the mark of the first durable abort stays where it is. */
  predicate Continues(before: Record, earlier: seq<Sent>, after: Record, sends: seq<Sent>) {
    && earlier <= sends
    && (before.history.abortFrom.Some? ==> after.history.abortFrom == before.history.abortFrom)
  }

  /** The lookup of the run that a reply asks for has failed. */
  predicate Unreadable(record: Record, uncertain: bool, reply: Reply, seen: Lookup) {
    reply.Threw? && !reply.failure.unknown && NeedsLookup(record, uncertain, reply.failure) && seen.LookupFailed?
  }

  /**
   What a dispatch can leave on disk: the journal as begun, possibly with an operation noted, or that journal
   settled by one reply, judged by what was known of the command before.
   */
  predicate LeftAs(before: Record, operation: Option<OperationId>, reply: Reply, seen: Lookup, after: Record) {
    && before.pending.Some?
    && var begun := WithOperation(Begin(before), operation);
       && (reply.Answered? ==> Answers(begun.pending.value.request, begun.pending.value.key, reply.value))
       && (after == begun || after == Settle(begun, Uncertain(before), reply, seen))
  }

  ghost predicate Staged(before: Record, after: Record) {
    exists operation, reply, seen :: LeftAs(before, operation, reply, seen, after)
  }

  /** A journal that may be on disk: it keeps every invariant, and invents nothing. */
  ghost predicate Sound(journal: Record, sends: seq<Sent>, next: Key, told: set<Value>, given: Option<nat>) {
    Good(journal, sends, next) && Grounded(journal, sends, told, given)
  }

  lemma PrepareSound(record: Record, sends: seq<Sent>, next: Key, told: set<Value>, given: Option<nat>, request: Request)
    requires Sound(record, sends, next, told, given)
    requires MayPrepare(record, request) && Fits(record, request) && Describes(record.history, request)
    requires Current(record, request) && Purposeful(record, request, RunIdOf(record))
    ensures Sound(Prepare(record, next, request, |sends|), sends, next + 1, told, given)
  {
    PrepareKeeps(record, sends, next, request);
    PrepareGrounded(record, sends, told, given, next, request);
  }

  lemma SettleSound(record: Record, sends: seq<Sent>, next: Key, told: set<Value>, given: Option<nat>, uncertain: bool, reply: Reply, lookup: Lookup)
    requires Sound(record, sends, next, told, given) && Begun(record) && Heard(record, reply) && LooksUp(record, lookup)
    requires lookup.Remote? ==> RunView(lookup.run) in told
    requires reply.Answered? ==> reply.value in told
    requires !uncertain && reply.Threw? && CleanRejection(record.pending.value.request, reply.failure) ==> AllRefused(sends, record.pending.value.key)
    ensures Sound(Settle(record, uncertain, reply, lookup), sends, next, told, given)
    ensures Settle(record, uncertain, reply, lookup).history.abortFrom == record.history.abortFrom
  {
    SettleKeeps(record, sends, next, uncertain, reply, lookup);
    SettleGrounded(record, sends, next, told, given, uncertain, reply, lookup);
  }

  lemma SoundLater(record: Record, sends: seq<Sent>, next: Key, told: set<Value>, given: Option<nat>)
    requires Sound(record, sends, next, told, given)
    ensures Sound(record, sends, next + 1, told, given)
  {
  }

  class LocalWorkspace {
    /** `self.record`, as the running process holds it. */
    var record: Record
    /** `state.json`, as a restarted process would load it. */
    var durable: Record
    /** The next unused idempotency key. */
    var nextKey: Key
    /** History variable: every transmission of any command, oldest first. */
    var sends: seq<Sent>
    /** History variable: every value the server answered that this client read. */
    ghost var told: set<Value>
    /** History variable: the last value answered to the command of each key. */
    ghost var replies: map<Key, Value>
    /** The workspace the caller named, unless one is to be created. */
    const given: Option<nat>

    /** The journal on disk is sound; the quantifier makes proofs look inside only where they ask for it. */
    ghost predicate Valid()
      reads this
    {
      forall journal :: journal == durable ==> Sound(journal, sends, nextKey, told, given)
    }

    /** `provision`, up to its first save. */
    constructor (create: bool, workspace: Option<nat>, mode: Mode)
      ensures Valid() && sends == [] && record == durable
      ensures durable.phase == if create then Creating else Opening
    {
      var initial := Record(
        workspace, mode, None, None, if create then Creating else Opening, None, [], 0,
        None, false, None, None, None, None, None, None, CleanupPending, NOTHING_YET);
      record, durable, nextKey, sends, told, replies, given := initial, initial, 0, [], {}, map[], workspace;
    }

    /** A renewal and an abort are answered with the run as it is held. */
    ghost predicate ViewAnswered(command: Pending)
      reads this
    {
      command.request.RenewLease? || command.request.AbortRun? ==> record.run.Some? && Replied(command.key, RunView(record.run.value))
    }

    ghost predicate Replied(key: Key, value: Value)
      reads this
    {
      key in replies && replies[key] == value
    }

    /** `_save`: one atomic replacement of the journal, which the process may or may not survive. */
    method Save() returns (crashed: bool)
      modifies this`durable
      ensures durable == record || (crashed && durable == old(durable))
    {
      crashed := *;
      if crashed {
        var replaced: bool := *;
        if replaced { durable := record; }
      } else {
        durable := record;
      }
    }

    /** One HTTP exchange. The process can also die while the request is on its way. */
    method Transmit() returns (reply: Reply, crashed: bool)
      requires Valid() && record == durable && Begun(record)
      modifies this`sends, this`told, this`replies
      ensures Valid() && old(told) <= told
      ensures |sends| == |old(sends)| + 1 && sends == old(sends) + [sends[|old(sends)|]]
      ensures var p := record.pending.value; var sent := sends[|old(sends)|];
        && sent.key == p.key && sent.request == p.request && sent.run == RunIdOf(record)
        && (!crashed ==> Observes(p.request, p.key, sent.fate, reply))
        && (!crashed && reply.Answered? ==> reply.value in told && replies == old(replies)[p.key := reply.value])
        && (!crashed && reply.Threw? && CleanRejection(p.request, reply.failure) ==> sent.rejection == Some(reply.failure.httpStatus))
    {
      assert Sound(durable, sends, nextKey, told, given);
      var p := record.pending.value;
      var fate: Fate := *;
      reply := *;
      crashed := *;
      if !Observes(p.request, p.key, fate, reply) { reply := Threw(ResponseLost); }
      var rejection := if !crashed && reply.Threw? && CleanRejection(p.request, reply.failure) then Some(reply.failure.httpStatus) else None;
      var sent := Send(p.key, p.request, RunIdOf(record), fate, rejection);
      TransmitKeeps(record, sends, nextKey, sent);
      TransmitGrounded(record, sends, told, given, sent);
      sends := sends + [sent];
      if !crashed && reply.Answered? {
        Hear(reply.value);
        replies := replies[p.key := reply.value];
      }
    }

    /** One more value the server answered. */
    ghost method Hear(value: Value)
      requires Valid()
      modifies this`told
      ensures Valid() && told == old(told) + {value}
    {
      assert Sound(durable, sends, nextKey, told, given);
      StillGrounded(durable, sends, told, told + {value}, given);
      told := told + {value};
    }

    /** `operations.wait`: reads only; it returns the settled operation or throws. */
    method Wait(operation: OperationId, ghost key: Key) returns (reply: Reply)
      requires Valid()
      modifies this`told, this`replies
      ensures Valid() && old(told) <= told
      ensures reply.Answered? ==> reply.value.OperationDone? && reply.value in told && key in replies && replies[key] == reply.value
      ensures reply.Threw? ==> ThrownByWait(reply.failure)
    {
      reply := *;
      if (reply.Answered? && !reply.value.OperationDone?) || (reply.Threw? && !ThrownByWait(reply.failure)) {
        reply := Threw(ResponseLost.(operationId := Some(operation)));
      }
      if reply.Answered? {
        Hear(reply.value);
        replies := replies[key := reply.value];
      }
    }

    /** `runs.get` for the held run. */
    method GetRun() returns (lookup: Lookup)
      requires Valid()
      modifies this`told
      ensures Valid() && old(told) <= told
      ensures LooksUp(record, lookup) && (lookup.Remote? ==> RunView(lookup.run) in told)
    {
      lookup := *;
      if record.run.None? || (lookup.Remote? && lookup.run.id != record.run.value.id) { lookup := LookupFailed; }
      if lookup.Remote? { Hear(RunView(lookup.run)); }
    }

    /** `_prepare` with its refusal. */
    method PrepareCommand(request: Request) returns (exit: Exit)
      requires Valid() && Sound(record, sends, nextKey, told, given) && record.history == durable.history
      requires Fits(record, request) && Describes(record.history, request)
      requires Current(record, request) && Purposeful(record, request, RunIdOf(record))
      modifies this`record, this`durable, this`nextKey
      ensures Valid() && old(nextKey) <= nextKey
      ensures Continues(old(durable), old(sends), durable, sends)
      ensures exit.Raised? ==> durable == old(durable)
      ensures exit.Raised? <==> !MayPrepare(old(record), request)
      ensures exit.Done? && old(record).pending.Some? ==> record.rejectedCommand == old(record).pending
      ensures exit.Done? ==> record == durable == Prepare(old(record), old(nextKey), request, |sends|)
    {
      assert Sound(durable, sends, nextKey, told, given);
      if !MayPrepare(record, request) { return Raised; }
      PrepareSound(record, sends, nextKey, told, given, request);
      SoundLater(durable, sends, nextKey, told, given);
      var prepared := Prepare(record, nextKey, request, |sends|);
      nextKey := nextKey + 1;
      var crashed := Install(prepared);
      exit := if crashed then Crashed else Done;
    }

    /** The save of a sound journal. */
    method Install(after: Record) returns (crashed: bool)
      requires Valid() && Sound(after, sends, nextKey, told, given)
      modifies this`record, this`durable
      ensures Valid() && record == after && (durable == after || durable == old(durable)) && (!crashed ==> durable == after)
    {
      record := after;
      crashed := Save();
    }

    /** The operation a command started is on disk before the client waits for it. */
    method NoteOperation(operation: OperationId) returns (crashed: bool)
      requires Valid() && Begun(record) && record == durable
      modifies this`record, this`durable
      ensures Valid() && record == WithOperation(old(record), Some(operation)) && (!crashed ==> durable == record)
      ensures durable == old(durable) || durable == record
      ensures Continues(old(durable), old(sends), durable, sends)
    {
      assert Sound(durable, sends, nextKey, told, given);
      RetainKeeps(record, WithOperation(record, Some(operation)), sends, nextKey);
      KeptGrounded(record, WithOperation(record, Some(operation)), sends, told, given);
      crashed := Install(WithOperation(record, Some(operation)));
    }

    /** The part of `_dispatch` that talks to the server, for a journal already saved as begun. */
    method Converse(uncertain: bool) returns (reply: Reply, exit: Exit)
      requires Valid() && record == durable && Begun(record)
      requires !uncertain ==> Unaccepted(sends, record.pending.value.key)
      modifies this`record, this`durable, this`sends, this`told, this`replies
      ensures Valid()
      ensures Continues(old(durable), old(sends), durable, sends)
      ensures Carries(old(sends), sends, old(record).pending.value.request)
      ensures exit.Done? && reply.Answered? ==> reply.value in told && Replied(old(record).pending.value.key, reply.value)
      ensures exit.Done? ==> Heard(record, reply)
      ensures exists operation :: durable == WithOperation(old(record), operation)
      ensures exit.Done? ==> record == durable && Begun(record)
      ensures exit.Done? && !uncertain && reply.Threw? && CleanRejection(record.pending.value.request, reply.failure) ==>
                AllRefused(sends, record.pending.value.key)
      ensures exit.Done? && reply.Answered? && record.pending.value.request.UploadFile? ==> record.capture.Some?
    {
      var p := record.pending.value;
      assert durable == WithOperation(record, None);
      if p.operationId.Some? {
        reply := Wait(p.operationId.value, p.key);
        // An operation that does not have the fields this command reads ends in an unhandled exception.
        exit := if Heard(record, reply) then Done else Raised;
        return reply, exit;
      }
      reply := Threw(ResponseLost);
      if p.request.UploadFile? && record.capture.None? { return reply, Raised; }
      var crashed;
      reply, crashed := Transmit();
      if crashed { return reply, Crashed; }
      if reply.Answered? && StartsOperation(p.request, reply.value) {
        crashed := NoteOperation(reply.value.operation);
        if crashed { return reply, Crashed; }
        reply := Wait(record.pending.value.operationId.value, p.key);
      }
      exit := Done;
    }

    /** The exception handlers of `_dispatch` and the save that ends it; `seen` is the run lookup they make for some replies. */
    method Conclude(uncertain: bool, reply: Reply) returns (exit: Exit, ghost seen: Lookup)
      requires Valid() && record == durable && Begun(record) && Heard(record, reply)
      requires !uncertain && reply.Threw? && CleanRejection(record.pending.value.request, reply.failure) ==> AllRefused(sends, record.pending.value.key)
      requires reply.Answered? ==> reply.value in told
      modifies this`record, this`durable, this`told
      ensures Valid()
      ensures Continues(old(durable), old(sends), durable, sends)
      ensures exit.Done? ==>
                record == durable && reply.Answered? && !SealMismatch(old(record), reply.value)
                && record == Accept(old(record), reply.value)
      ensures durable == old(durable) || durable == Settle(old(record), uncertain, reply, seen)
      ensures exit.Raised? ==> durable == if Unreadable(old(record), uncertain, reply, seen) then old(durable) else Settle(old(record), uncertain, reply, seen)
    {
      var lookup := LookupFailed;
      seen := lookup;
      if reply.Threw? && !reply.failure.unknown && NeedsLookup(record, uncertain, reply.failure) {
        lookup := GetRun();
        seen := lookup;
        if lookup.LookupFailed? { return Raised, seen; }
      }
      assert Sound(durable, sends, nextKey, told, given);
      SettleSound(record, sends, nextKey, told, given, uncertain, reply, lookup);
      var accepted := reply.Answered? && !SealMismatch(record, reply.value);
      var crashed := Install(Settle(record, uncertain, reply, lookup));
      exit := if crashed then Crashed else if accepted then Done else Raised;
    }

    /** The save of the journal that the request leaves behind. */
    method Launch() returns (exit: Exit)
      requires Valid() && record == durable && record.pending.Some?
      modifies this`record, this`durable
      ensures Valid() && Continues(old(durable), sends, durable, sends) && !exit.Raised?
      ensures record == Begin(old(record)) && (exit.Done? ==> record == durable && Begun(record))
      ensures durable == old(durable) || durable == record
      ensures !Uncertain(old(record)) ==> Unaccepted(sends, old(record).pending.value.key)
    {
      assert Sound(durable, sends, nextKey, told, given);
      BeginKeeps(record, sends, nextKey);
      KeptGrounded(record, Begin(record), sends, told, given);
      var crashed := Install(Begin(record));
      exit := if crashed then Crashed else Done;
    }

    /** `_dispatch`. A raised or interrupted dispatch leaves the command to a later one. */
    method Dispatch() returns (exit: Exit)
      requires Valid() && record == durable && record.pending.Some?
      modifies this`record, this`durable, this`sends, this`told, this`replies
      ensures Valid()
      ensures Continues(old(durable), old(sends), durable, sends)
      ensures Carries(old(sends), sends, old(record).pending.value.request)
      ensures durable == old(durable) || Staged(old(record), durable)
      ensures exit.Done? ==> record == durable && Carried(old(record), record) && ViewAnswered(old(record).pending.value)
    {
      var uncertain := Uncertain(record);
      ghost var before := record;
      assert Sound(durable, sends, nextKey, told, given);
      Dispatchable(record, sends, nextKey);
      exit := Launch();
      if exit.Done? {
        exit := Perform(uncertain, before);
      } else if durable == record {
        assert LeftAs(before, None, Threw(ResponseLost), LookupFailed, durable);
      }
    }

    /** What `_dispatch` does once the journal is saved as begun. */
    method Perform(uncertain: bool, ghost before: Record) returns (exit: Exit)
      requires Valid() && record == durable && before.pending.Some? && record == Begin(before) && Begun(record)
      requires uncertain == Uncertain(before) && (!uncertain ==> Unaccepted(sends, record.pending.value.key))
      requires Coherent(before) && UploadInRange(before) && before.pending.value.key !in before.history.settled
      modifies this`record, this`durable, this`sends, this`told, this`replies
      ensures Valid()
      ensures Continues(old(durable), old(sends), durable, sends)
      ensures Carries(old(sends), sends, before.pending.value.request)
      ensures Staged(before, durable)
      ensures exit.Done? ==> record == durable && Carried(before, record) && ViewAnswered(before.pending.value)
    {
      var reply;
      reply, exit := Converse(uncertain);
      ghost var operation :| durable == WithOperation(Begin(before), operation);
      assert LeftAs(before, operation, Threw(ResponseLost), LookupFailed, durable);
      if !exit.Done? { return exit; }
      ghost var seen;
      exit, seen := Conclude(uncertain, reply);
      assert LeftAs(before, operation, reply, seen, durable);
      if exit.Done? { CompletionDispatches(before, operation, reply.value, record); }
    }

    /** A journal write that moves no command. */
    method Move(after: Record) returns (crashed: bool)
      requires Valid() && record == durable && Coherent(after)
      requires after == record.(run := after.run, phase := after.phase, uploadIndex := after.uploadIndex,
                                checkpoint := after.checkpoint, capture := after.capture, cleanup := after.cleanup)
      requires RunIdOf(after) == RunIdOf(record)
      requires after.capture == record.capture || after.capture.None?
      requires NextStep(after) == NextStep(record) || Earlier(NextStep(record), NextStep(after))
      requires
        || after.phase == record.phase
        || (record.phase.Hydrating? && after.phase.Ready?)
        || (record.phase.Uploading? && after.phase.Sealing?)
      requires after.checkpoint == record.checkpoint || (record.phase.Hydrating? && after.phase.Ready?)
      requires after.run == record.run || (after.run.Some? && RunView(after.run.value) in told)
      requires Collected(after)
      modifies this`record, this`durable
      ensures Valid()
      ensures Continues(old(durable), old(sends), durable, sends)
      ensures record == after && (durable == after || durable == old(durable)) && (!crashed ==> durable == after)
    {
      assert Sound(durable, sends, nextKey, told, given);
      MoveKeeps(record, after, sends, nextKey);
      KeptGrounded(record, after, sends, told, given);
      crashed := Install(after);
    }

    /** A turn of the loop of `_advance` with a command pending; `finished` says that the loop returns. */
    method Resume() returns (exit: Exit, finished: bool)
      requires Valid() && record == durable && record.pending.Some? && record.abandoned.None?
      modifies this`record, this`durable, this`sends, this`told, this`replies
      ensures Valid()
      ensures Continues(old(durable), old(sends), durable, sends)
      ensures exit.Done? ==> StaysUnderway(old(record), record)
      ensures EndsHere(old(durable)) ==> NoOpeningFrom(sends, |old(sends)|)
      ensures exit.Done? ==> record == durable && record.pending.None? && record.abandoned.None? && Descends(old(record), record)
      ensures exit.Done? && finished ==> record.phase.Ready?
    {
      assert Sound(durable, sends, nextKey, told, given);
      exit := Dispatch();
      finished := exit.Done? && record.phase.Ready?;
    }

    /** A turn of the loop of `_advance` with no command pending. */
    method Proceed() returns (exit: Exit, finished: bool)
      requires Valid() && record == durable && record.pending.None? && record.abandoned.None?
      modifies this`record, this`durable, this`nextKey
      ensures Valid()
      ensures Continues(old(durable), old(sends), durable, sends)
      ensures exit.Done? ==> record == durable && record.abandoned.None?
      ensures exit.Done? ==> StaysUnderway(old(record), record)
      ensures exit.Done? && !finished ==> Descends(old(record), record)
      ensures exit.Done? && finished ==> record.pending.None? && (record.phase.Ready? || Terminal(record.phase))
    {
      assert Sound(durable, sends, nextKey, told, given);
      finished := false;
      var request: Request;
      match record.phase {
        case Creating =>
          request := CreateWorkspace;
        case Opening | PublishedNeedsReopen =>
          request := OpenRun(record.workspace);
        case Hydrating =>
          exit := Hydrate();
          return;
        case SubmissionCreate =>
          request := CreateSubmission(record.run.value.id);
        case Uploading =>
          exit := UploadNext(record.run.value.id);
          return;
        case Sealing =>
          exit := SealNext();
          return;
        case Finalizing =>
          exit := FinalizeNext();
          return;
        case Conflicted | Failed | Expired =>
          return Raised, false;
        case Ready | Finalized | Aborted | Abandoned =>
          return Done, true;
      }
      exit := PrepareCommand(request);
    }

    /** `_hydrate`: downloads that can fail, then the ready journal. */
    method Hydrate() returns (exit: Exit)
      requires Valid() && record == durable && record.phase.Hydrating? && record.pending.None?
      modifies this`record, this`durable
      ensures Valid()
      ensures Continues(old(durable), old(sends), durable, sends)
      ensures exit.Done? ==> record == durable == Hydrated(old(record))
    {
      assert Sound(durable, sends, nextKey, told, given);
      var downloaded: bool := *;
      if !downloaded { return Raised; }
      var crashed := Move(Hydrated(record));
      exit := if crashed then Crashed else Done;
    }

    /** The uploading turn: skip a directory, finish the list, or prepare the next file. */
    method UploadNext(run: RunId) returns (exit: Exit)
      requires Valid() && record == durable && record.phase.Uploading? && record.pending.None?
      requires record.abandoned.None? && RunIdOf(record) == Some(run)
      modifies this`record, this`durable, this`nextKey
      ensures Valid()
      ensures Continues(old(durable), old(sends), durable, sends)
      ensures exit.Done? ==> record == durable && record.abandoned.None? && Descends(old(record), record)
      ensures exit.Done? ==> StaysUnderway(old(record), record)
    {
      assert Sound(durable, sends, nextKey, told, given);
      if record.capture.None? { return Raised; }
      var entries := record.capture.value.manifest;
      var index := record.uploadIndex;
      assert entries == record.history.captureOf[run].manifest;
      if index >= |entries| {
        ReceiptsComplete(record.receipts, entries);
        var crashed := Move(record.(phase := Sealing));
        exit := if crashed then Crashed else Done;
      } else if entries[index].Directory? {
        ReceiptsSkip(record.receipts, entries, index);
        var crashed := Move(record.(uploadIndex := index + 1));
        exit := if crashed then Crashed else Done;
      } else {
        if record.submission.None? { return Raised; }
        exit := PrepareCommand(UploadFile(run, record.submission.value.id, record.capture.value.id, index, entries[index]));
      }
    }

    /** The sealing turn. */
    method SealNext() returns (exit: Exit)
      requires Valid() && record == durable && record.phase.Sealing? && record.pending.None? && record.abandoned.None?
      modifies this`record, this`durable, this`nextKey
      ensures Valid()
      ensures Continues(old(durable), old(sends), durable, sends)
      ensures exit.Done? ==> record == durable && record.abandoned.None? && Descends(old(record), record)
      ensures exit.Done? ==> StaysUnderway(old(record), record)
    {
      assert Sound(durable, sends, nextKey, told, given);
      if record.submission.None? || record.capture.None? { return Raised; }
      exit := PrepareCommand(SealSubmission(record.run.value.id, record.submission.value.id,
                                            record.capture.value.manifest, record.receipts));
    }

    /** The finalizing turn: a writable run is finalized with its submission. */
    method FinalizeNext() returns (exit: Exit)
      requires Valid() && record == durable && record.phase.Finalizing? && record.pending.None? && record.abandoned.None?
      modifies this`record, this`durable, this`nextKey
      ensures Valid()
      ensures Continues(old(durable), old(sends), durable, sends)
      ensures exit.Done? ==> record == durable && record.abandoned.None? && Descends(old(record), record)
      ensures exit.Done? ==> StaysUnderway(old(record), record)
    {
      assert Sound(durable, sends, nextKey, told, given);
      if record.mode.ReadWrite? && record.submission.None? { return Raised; }
      exit := PrepareCommand(FinalizeRun(record.run.value.id, record.run.value.version,
                                         if record.mode.ReadWrite? then Some(record.submission.value.id) else None));
    }

    /** `_advance`: the loop ends on every path, because each turn that does not end it descends. */
    method Advance() returns (exit: Exit)
      requires Valid() && record == durable
      modifies this`record, this`durable, this`nextKey, this`sends, this`told, this`replies
      ensures Valid()
      ensures Continues(old(durable), old(sends), durable, sends)
      ensures exit.Done? ==> record == durable && record.pending.None? && (record.phase.Ready? || Terminal(record.phase))
      ensures exit.Done? ==> StaysUnderway(old(durable), durable)
      ensures EndsHere(old(durable)) ==> NoOpeningFrom(sends, |old(sends)|)
    {
      if record.abandoned.Some? { return Raised; }
      while true
        invariant Valid() && record == durable && record.abandoned.None?
        invariant Continues(old(durable), old(sends), durable, sends)
        invariant StaysUnderway(old(durable), durable)
        invariant EndsHere(old(durable)) ==> EndsHere(durable) && NoOpeningFrom(sends, |old(sends)|)
        decreases PhaseRank(record.phase), EntriesLeft(record), PendingRank(record)
      {
        var finished;
        if record.pending.Some? {
          exit, finished := Resume();
        } else {
          exit, finished := Proceed();
        }
        if !exit.Done? || finished { return; }
      }
    }

    /** `_locked`: every public call starts from the journal on disk. */
    method Lock()
      requires Valid()
      modifies this`record
      ensures Valid() && record == durable
    {
      record := durable;
    }

    method Reconcile() returns (exit: Exit)
      requires Valid()
      modifies this
      ensures Valid()
      ensures Continues(old(durable), old(sends), durable, sends)
      ensures exit.Done? ==> durable.pending.None? && (durable.phase.Ready? || Terminal(durable.phase))
      ensures exit.Done? ==> StaysUnderway(old(durable), durable)
      ensures EndsHere(old(durable)) ==> NoOpeningFrom(sends, |old(sends)|)
    {
      Lock();
      exit := Advance();
    }

    method Status() returns (exit: Exit)
      requires Valid()
      modifies this
      ensures Valid() && sends == old(sends)
      ensures Continues(old(durable), old(sends), durable, sends)
      ensures durable == old(durable).(run := durable.run)
      ensures exit.Done? && durable.run.Some? ==> RunView(durable.run.value) in told
      ensures exit.Raised? ==> durable == old(durable)
    {
      assert Sound(durable, sends, nextKey, told, given);
      Lock();
      if record.run.None? { return Done; }
      var lookup := GetRun();
      if lookup.LookupFailed? { return Raised; }
      var crashed := Move(SetRun(record, lookup.run));
      exit := if crashed then Crashed else Done;
    }

    method Heartbeat() returns (exit: Exit)
      requires Valid()
      modifies this
      ensures Valid()
      ensures Continues(old(durable), old(sends), durable, sends)
      ensures old(durable).pending.Some? || old(durable).run.None? ==> exit.Raised? && durable == old(durable) && sends == old(sends)
      ensures exit.Done? ==> durable.pending.None? && durable.phase == old(durable).phase && old(nextKey) in durable.history.settled
      ensures exit.Done? ==> durable.run.Some? && Replied(old(nextKey), RunView(durable.run.value))
      ensures old(durable).run.Some? ==>
                Carries(old(sends), sends, RenewLease(old(durable).run.value.id, old(durable).run.value.leaseVersion))
    {
      assert Sound(durable, sends, nextKey, told, given);
      Lock();
      if record.pending.Some? || record.run.None? { return Raised; }
      exit := PrepareCommand(RenewLease(record.run.value.id, record.run.value.leaseVersion));
      if exit.Done? { exit := Dispatch(); }
    }

    /**
     `finalize` and `checkpoint`. Begun on a ready workspace, the first ends with the run finalized and the
     second on another run; resumed, either ends as the publication in progress was begun.
     */
    method Publish(checkpoint: bool) returns (exit: Exit)
      requires Valid()
      modifies this
      ensures Valid()
      ensures Continues(old(durable), old(sends), durable, sends)
      ensures exit.Done? ==> durable.phase.Ready? || Terminal(durable.phase)
      ensures exit.Done? && Startable(old(durable)) ==> Published(old(durable), durable, checkpoint)
      ensures Startable(old(durable)) && !checkpoint ==> NoOpeningFrom(sends, |old(sends)|)
      ensures exit.Done? && !Startable(old(durable)) ==> StaysUnderway(old(durable), durable)
      ensures EndsHere(old(durable)) ==> NoOpeningFrom(sends, |old(sends)|)
      ensures old(durable).abandoned.None? && old(durable).pending.None? && old(durable).phase.Finalized? ==>
                exit.Done? && durable == old(durable) && sends == old(sends)
    {
      Lock();
      if record.abandoned.Some? { return Raised; }
      if record.pending.Some? || !(record.phase.Ready? || record.phase.Finalized?) {
        exit := Advance();
        return;
      }
      if record.phase.Finalized? { return Done; }
      exit := Start(checkpoint);
      if exit.Done? { exit := Advance(); }
    }

    /** The save that begins a publication, with the capture just taken of a writable run. */
    method Start(checkpoint: bool) returns (exit: Exit)
      requires Valid() && record == durable && Startable(record)
      modifies this`record, this`durable
      ensures Valid()
      ensures Continues(old(durable), old(sends), durable, sends)
      ensures exit.Done? ==> record == durable && old(record).run.Some? && Underway(record, old(record).run.value.id, checkpoint)
    {
      assert Sound(durable, sends, nextKey, told, given);
      var captured: bool := *;
      var capture: Capture := *;
      if record.mode.ReadWrite? && !captured { return Raised; }
      StartPublicationKeeps(record, sends, nextKey, checkpoint, capture);
      StartPublicationGrounded(record, sends, told, given, checkpoint, capture);
      var crashed := Install(StartPublication(record, checkpoint, capture));
      exit := if crashed then Crashed else Done;
    }

    /** `seen` is what the lookup of the held run showed. */
    method Abort() returns (exit: Exit, ghost seen: Lookup)
      requires Valid()
      modifies this
      ensures Valid()
      ensures Continues(old(durable), old(sends), durable, sends)
      ensures old(durable).pending.Some? && !DefinitelyRejected(old(durable)) ==> exit.Raised? && durable == old(durable) && sends == old(sends)
      ensures !(seen.Remote? && seen.run.state.Active?) ==> durable == old(durable) && sends == old(sends)
      ensures !(seen.Remote? && seen.run.state.Active?) && !old(durable).phase.Aborted? ==> exit.Raised?
      ensures exit.Done? ==> durable.phase.Aborted?
      ensures exit.Done? && !old(durable).phase.Aborted? ==> durable.run.Some? && Replied(old(nextKey), RunView(durable.run.value))
      ensures OnlyAborts(sends, |old(sends)|, RunIdOf(old(durable)))
    {
      Lock();
      seen := LookupFailed;
      if record.pending.Some? && !DefinitelyRejected(record) { return Raised, seen; }
      if record.phase.Aborted? { return Done, seen; }
      if record.run.None? { return Raised, seen; }
      var lookup := GetRun();
      seen := lookup;
      if lookup.LookupFailed? || !lookup.run.state.Active? { return Raised, seen; }
      exit := AbortActive(lookup.run);
    }

    /** The abort of the held run, just seen active. */
    method AbortActive(remote: Run) returns (exit: Exit)
      requires Valid() && record == durable && !record.phase.Aborted?
      requires record.run.Some? && remote.id == record.run.value.id && RunView(remote) in told
      modifies this
      ensures Valid()
      ensures Continues(old(durable), old(sends), durable, sends)
      ensures exit.Done? ==> durable.phase.Aborted? && durable.run.Some? && Replied(old(nextKey), RunView(durable.run.value))
      ensures Carries(old(sends), sends, AbortRun(remote.id, remote.version))
    {
      assert Sound(durable, sends, nextKey, told, given);
      RunSeen(record, sends, nextKey, remote);
      KeptGrounded(record, SetRun(record, remote), sends, told, given);
      record := SetRun(record, remote);
      exit := PrepareCommand(AbortRun(remote.id, remote.version));
      if exit.Done? { exit := Dispatch(); }
    }

    /**
     `cleanup`: retires a rejected reopening, then deletes local files of a finished run. `seen` is what the
     lookup of the held run showed, and `confirmed` that the accepted checkpoint's operation was read again.
     */
    method CleanUp() returns (exit: Exit, ghost seen: Lookup, ghost confirmed: bool)
      requires Valid()
      modifies this
      ensures Valid() && sends == old(sends)
      ensures Continues(old(durable), old(sends), durable, sends)
      ensures old(durable).pending.Some? && !DefinitelyRejected(old(durable)) ==> exit.Raised? && durable == old(durable)
      ensures exit.Done? && !old(durable).cleanup.CleanupComplete? ==> durable.pending.None? && durable.cleanup.CleanupComplete?
      ensures exit.Done? && !old(durable).cleanup.CleanupComplete? ==>
                seen.Remote? && !seen.run.state.Active? && !seen.run.state.FinalizingRun? && RunIdOf(old(durable)) == Some(seen.run.id)
      ensures exit.Done? && !old(durable).cleanup.CleanupComplete? && old(durable).pending.Some? ==>
                Retired(old(durable), durable) && seen.run.state.FinalizedRun? && confirmed
      ensures exit.Done? && !old(durable).cleanup.CleanupComplete? && old(durable).pending.None? && old(durable).abandoned.Some? ==>
                old(durable).abandoned.value.run == seen.run.id && confirmed
    {
      Lock();
      seen, confirmed := LookupFailed, false;
      assert Sound(durable, sends, nextKey, told, given);
      if record.pending.Some? && (!record.pending.value.request.OpenRun? || !DefinitelyRejected(record) || record.run.None?) {
        return Raised, seen, confirmed;
      }
      if record.cleanup.CleanupComplete? { return Done, seen, confirmed; }
      if record.run.None? { return Raised, seen, confirmed; }
      var lookup := GetRun();
      seen := lookup;
      if lookup.LookupFailed? { return Raised, seen, confirmed; }
      var remote := lookup.run;
      var confirms: bool := *;  // the operation read still confirms the checkpoint that was accepted
      confirmed := confirms;
      if record.pending.Some? {
        exit := RetireReopen(remote, confirms);
        if !exit.Done? { return; }
      } else if record.abandoned.Some? {
        if record.abandoned.value.run != remote.id || !confirms { return Raised, seen, confirmed; }
      }
      if remote.state.Active? || remote.state.FinalizingRun? { return Raised, seen, confirmed; }
      exit := DeleteLocal(remote);
    }

    /** `_retire_rejected_reopen`, refused unless the operation read confirms the accepted checkpoint. */
    method RetireReopen(remote: Run, confirmed: bool) returns (exit: Exit)
      requires Valid() && record == durable && DefinitelyRejected(record)
      requires record.run.Some? && remote.id == record.run.value.id && RunView(remote) in told
      modifies this`record, this`durable
      ensures Valid()
      ensures Continues(old(durable), old(sends), durable, sends)
      ensures exit.Raised? ==> durable == old(durable)
      ensures exit.Done? ==> remote.state.FinalizedRun? && confirmed
      ensures exit.Done? ==> record == durable && Retired(old(record), record) && RunIdOf(record) == Some(remote.id)
    {
      assert Sound(durable, sends, nextKey, told, given);
      if record.pending.value.request != OpenRun(record.workspace)
         || !remote.state.FinalizedRun? || record.lastOperation.None? || !confirmed {
        return Raised;
      }
      RetireKeeps(record, sends, nextKey, remote, record.lastOperation.value.id);
      KeptGrounded(record, Retire(record, remote, record.lastOperation.value.id), sends, told, given);
      var crashed := Install(Retire(record, remote, record.lastOperation.value.id));
      exit := if crashed then Crashed else Done;
    }

    /** The deletion of the workspace and the private captures of a finished run. */
    method DeleteLocal(remote: Run) returns (exit: Exit)
      requires Valid() && record == durable && record.pending.None?
      requires record.run.Some? && remote.id == record.run.value.id && RunView(remote) in told
      modifies this`record, this`durable
      ensures Valid()
      ensures Continues(old(durable), old(sends), durable, sends)
      ensures exit.Done? ==> durable.pending.None? && durable.cleanup.CleanupComplete? && durable.capture.None?
      ensures durable == old(durable).(run := durable.run, cleanup := durable.cleanup, capture := durable.capture)
    {
      assert Sound(durable, sends, nextKey, told, given);
      var crashed := Move(SetRun(record, remote).(cleanup := CleanupRunning));
      if crashed { return Crashed; }
      var deleted: bool := *;
      if deleted {
        crashed := Move(record.(capture := None, cleanup := CleanupComplete));
        exit := if crashed then Crashed else Done;
      } else {
        crashed := Move(record.(cleanup := CleanupFailed));
        exit := if crashed then Crashed else Raised;
      }
    }

    /**
     Any number of calls in any order, each of which may raise or be cut short by a crash
     and is followed by a restart from disk: the guarantees hold in every state reached,
     and nothing is published any more once an abort was on disk.
     */
    method AnyHistory(calls: nat)
      requires Valid()
      modifies this
      ensures Valid()
      ensures Continues(old(durable), old(sends), durable, sends)
      ensures Guarantees(durable, sends) && Truthful(durable, told, given) && AllTold(sends, told, given)
      ensures old(durable).pending.Some? && old(durable).pending.value.request.AbortRun? ==>
                NoPublicationFrom(sends, |old(sends)|)
    {
      assert Sound(durable, sends, nextKey, told, given);
      for call := 0 to calls
        invariant Valid() && Continues(old(durable), old(sends), durable, sends)
      {
        var choice: int := *;
        var exit;
        ghost var seen, confirmed;
        match choice {
          case 0 => exit := Reconcile();
          case 1 => exit := Status();
          case 2 => exit := Heartbeat();
          case 3 => exit := Publish(false);
          case 4 => exit := Publish(true);
          case 5 => exit, seen := Abort();
          case _ => exit, seen, confirmed := CleanUp();
        }
      }
      assert Sound(durable, sends, nextKey, told, given);
      OneCapturePerRun(durable, sends, nextKey);
    }
  }

  /** A publication can begin. */
  predicate Startable(record: Record) { record.abandoned.None? && record.pending.None? && record.phase.Ready? }

  /** The publication that the caller asked for has happened, and a checkpoint has gone on to another run. */
  predicate Published(before: Record, after: Record, checkpoint: bool) {
    && before.run.Some? && after.run.Some? && after.lastOperation.Some? && before.run.value.id in after.history.finalized
    && if checkpoint then after.phase.Ready? && RunIdOf(after) != RunIdOf(before)
       else after.phase.Finalized? && RunIdOf(after) == RunIdOf(before)
  }

  /** A rejected reopening is put aside for good, with its proof and the checkpoint it belongs to. */
  predicate Retired(before: Record, after: Record) {
    && before.pending.Some? && before.pending.value.request == OpenRun(before.workspace) && before.rejection.Some? && before.lastOperation.Some?
    && after.pending.None? && after.phase.Abandoned? && after.abandoned.Some?
    && after.abandoned.value == Abandonment(before.pending.value, before.rejection.value, before.lastOperation.value.id, after.abandoned.value.run)
    && RunIdOf(before) == Some(after.abandoned.value.run)
  }

  /** A publication is in progress that the caller asked to be the last. */
  ghost predicate EndsHere(record: Record) { exists run :: Underway(record, run, false) }

  /** Whatever was sent meanwhile aborts this run. */
  predicate OnlyAborts(sends: seq<Sent>, from: nat, run: Option<RunId>) {
    forall i :: from <= i < |sends| ==> sends[i].request.AbortRun? && Some(sends[i].request.run) == run
  }

  /** What a reader of the journal and the server may rely on after any history. */
  ghost predicate Guarantees(durable: Record, sends: seq<Sent>) {
    && (DefinitelyRejected(durable) ==> AllRefused(sends, durable.pending.value.key))
    && (durable.abandoned.Some? ==> AllRefused(sends, durable.abandoned.value.command.key))
    && NothingForgotten(durable, sends)
    && AtMostOnce(sends)
    && (forall i :: 0 <= i < |sends| ==> Purposeful(durable, sends[i].request, sends[i].run))
    && SealHeld(durable)
    && (forall i, j :: 0 <= i < |sends| && 0 <= j < |sends| && sends[i].run == sends[j].run ==>
          SamePublication(sends[i].request, sends[j].request))
  }

  /** The lexicographic order that the loop of `_advance` descends. */
  predicate Descends(before: Record, after: Record) {
    || PhaseRank(after.phase) < PhaseRank(before.phase)
    || (PhaseRank(after.phase) == PhaseRank(before.phase) && EntriesLeft(after) < EntriesLeft(before))
    || (PhaseRank(after.phase) == PhaseRank(before.phase) && EntriesLeft(after) == EntriesLeft(before)
        && PendingRank(after) < PendingRank(before))
  }

  /** No transmission of the key so far can have been accepted. */
  ghost predicate Unaccepted(sends: seq<Sent>, key: Key) {
    NeverSent(sends, key) || AllRefused(sends, key)
  }

  /** A reply the transport or an operation wait can produce for the pending command. */
  predicate Heard(record: Record, reply: Reply) {
    && record.pending.Some?
    && (reply.Answered? ==> Answers(record.pending.value.request, record.pending.value.key, reply.value))
    && (reply.Threw? ==> Thrown(reply.failure))
  }

  /** Another view of the held run. */
  lemma RunSeen(record: Record, sends: seq<Sent>, next: Key, remote: Run)
    requires Good(record, sends, next) && record.run.Some? && remote.id == record.run.value.id
    ensures Good(SetRun(record, remote), sends, next)
  {
    MoveKeeps(record, SetRun(record, remote), sends, next);
  }
}
