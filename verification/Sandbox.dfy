/**
 `checkoutSandbox`, `commitSandbox` and `destroySandbox`, run against a process that can die
 before or after any save and a control store whose runs may end at any moment.
 */
module Sandbox {
  import opened Prelude
  import opened SandboxJournal

  /** Died is the death of the process: its caller gets no answer at all. */
  datatype Failure = NotFound | InvalidTransition | OutcomeUnknown | NoChanges | Unavailable | Died

  /** How one attempt at the publication of a checkpoint ended for its caller. */
  datatype Outcome = Accepted(commit: Commit) | Unknown | Refused | Unanswered

  /** The checkpoint is complete. */
  predicate Recorded(s: State, key: Key) { !s.session.phase.Destroyed? && key in s.checkpoints && s.checkpoints[key].result }

  /** There is a session, and the checkpoint is not complete. */
  predicate Started(s: State, key: Key) { !s.session.phase.Destroyed? && !Recorded(s, key) }

  /** A capture is retained for a run that is still active. */
  predicate RetainsActive(s: State, retained: set<RunId>) {
    exists q :: q in retained && q in s.captureRuns && q in s.runs && s.runs[q].Active?
  }

  /** No other checkpoint is touched. */
  ghost predicate OthersKept(before: State, after: State, key: Key) {
    && (key in before.checkpoints ==> key in after.checkpoints)
    && forall k :: k != key ==>
      (k in after.checkpoints <==> k in before.checkpoints) && (k in before.checkpoints ==> after.checkpoints[k] == before.checkpoints[k])
  }

  /** Neither the checkpoint's run nor its publication changes. */
  predicate SameSource(before: State, after: State, key: Key) {
    && key in before.checkpoints && key in after.checkpoints
    && after.checkpoints[key].run == before.checkpoints[key].run && after.checkpoints[key].published == before.checkpoints[key].published
  }

  /** What a failed publication leaves: the checkpoint stays pending unless its run has ended without it. */
  predicate PublicationLeft(before: State, after: State, key: Key, failure: Failure) {
    match failure
    case Died => true
    case OutcomeUnknown => after.session == before.session.(phase := Uncertain)
    case InvalidTransition =>
      && key in after.checkpoints
      && after.session == if IsLive(after, after.checkpoints[key].run) then before.session else before.session.(phase := FailedPhase, pendingKey := None)
    case _ => false
  }

  /** The session is back at work on the reopened run with its result saved, or stays stopped with the checkpoint pending. */
  predicate Reopened(s: State, key: Key, r: Result<Option<RunId>, Failure>) {
    match r
    case Err(failure) => failure.Died?
    case Ok(None) => s.session.phase.NeedsReopen? && s.session.pendingKey == Some(key)
    case Ok(Some(n)) =>
      && s.session == Session(Working, Some(n), None) && key in s.checkpoints && s.checkpoints[key].result && s.checkpoints[key].reopenRun == Some(n)
      && Reopen(key) in s.opens && s.opens[Reopen(key)] == n
  }

  ghost predicate Reached(s: State, history: seq<Event>) {
    && Possible(FRESH, history) && After(FRESH, history) == s && Structure(s)
    && (AllCareful(FRESH, history) ==> Sound(s))
  }

  class SandboxSession {
    var s: State
    /** History variable: every durable step so far, oldest first. */
    ghost var history: seq<Event>

    /** The state is what the steps so far made it; the quantifier makes proofs look inside only where they ask for it. */
    ghost predicate Valid()
      reads this
    {
      forall state :: state == s ==> Reached(state, history)
    }

    /** Every retry so far was safe, in the exact sense of RetrySafeExactly. */
    ghost predicate Undamaged()
      requires Valid()
      reads this
    {
      assert Reached(s, history);
      AllCareful(FRESH, history)
    }

    constructor ()
      ensures Valid() && Undamaged() && s == FRESH
    {
      s, history := FRESH, [];
      FreshSound();
      SoundStructure(FRESH);
    }

    /** One durable step, of the session or of the control store. */
    method Do(e: Event)
      requires Valid() && Allowed(s, e)
      modifies this
      ensures Valid() && s == Apply(old(s), e) && history == old(history) + [e]
      ensures old(Undamaged()) && Careful(old(s), e) ==> Undamaged()
    {
      assert Reached(s, history);
      StructureAfter(s, e);
      Extend(FRESH, history, e);
      ExtendBack(FRESH, history, e);
      if Undamaged() && Careful(s, e) { StepSound(s, e); }
      s, history := Apply(s, e), history + [e];
    }

    /** Any run may end, and any accepted finalization may complete, while the caller waits. */
    method Elapse()
      requires Valid()
      modifies this
      ensures Valid() && (old(Undamaged()) ==> Undamaged()) && s == old(s).(runs := s.runs) && Live(s) <= Live(old(s))
      ensures forall r :: r in old(s).runs ==> r in s.runs && (s.runs[r] == old(s).runs[r] || MayBecome(old(s).runs[r], s.runs[r]))
    {
      assert Reached(s, history);
      var moves: bool, r: RunId, next: RunState := *, *, *;
      if moves && r in s.runs && MayBecome(s.runs[r], next) {
        Do(RunMoved(r, next));
        assert Live(s) <= Live(old(s));
      }
    }

    /** An opening under a key: replayed when recorded, otherwise accepted or refused. */
    method Open(opening: OpenKey) returns (r: Option<RunId>)
      requires Valid()
      requires match opening
        case Checkout => s.session.phase.Opening? && s.session.runId.None?
        case Reopen(key) => Pending(s, key) && s.checkpoints[key].published.Some?
      modifies this
      ensures Valid() && (old(Undamaged()) ==> Undamaged()) && s.session == old(s).session && s.checkpoints == old(s).checkpoints
      ensures r.Some? ==> opening in s.opens && s.opens[opening] == r.value && r.value in s.runs
    {
      assert Reached(s, history);
      var accepts: bool, read: bool, minted: RunId := *, *, *;
      if opening !in s.opens {
        if !accepts || minted in s.runs { return None; }
        Do(OpenAccepted(opening, minted));
      }
      r := if read then Some(s.opens[opening]) else None;
    }

    /** Checkout from its first save on. */
    method CheckoutSandbox() returns (r: Result<RunId, Failure>)
      requires Valid() && s == FRESH
      modifies this
      ensures Valid() && (old(Undamaged()) ==> Undamaged())
      ensures r.Ok? ==> s.session == Session(Working, Some(r.value), None) && Checkout in s.opens && s.opens[Checkout] == r.value
    {
      assert Reached(s, history);
      var run := Open(Checkout);
      if run.None? { return Err(Unavailable); }
      var alive: bool := *;
      if !alive { return Err(Unavailable); }
      Do(RunSaved(run.value));
      var hydrated: bool := *;
      if !hydrated { return Err(Unavailable); }
      Do(PhaseSaved(Working));
      r := Ok(run.value);
    }

    /** The publication of the pending checkpoint's source: at most one claim, by this key. */
    method Publish(key: Key) returns (outcome: Outcome)
      requires Valid() && Pending(s, key) && s.checkpoints[key].published.None?
      modifies this
      ensures Valid() && (old(Undamaged()) ==> Undamaged()) && s.session == old(s).session && s.checkpoints == old(s).checkpoints
      ensures outcome.Accepted? ==> Allowed(s, PublishedSaved(key, outcome.commit))
    {
      assert Reached(s, history);
      assert Reached(s, history) && RunRecorded(s, key, s.checkpoints[key]);
      var run := s.checkpoints[key].run;
      var claims: bool, ends: bool, commit: Commit, lost: bool, unknown: bool := *, *, *, *, *;
      if claims && s.runs[run].Active? { Do(FinalizationClaimed(key, run)); }
      if s.runs[run].Finalizing? && ends { Do(RunMoved(run, Finalized(commit))); }
      if lost { return Unanswered; }
      if s.runs[run].Finalized? && run in s.claimedBy && s.claimedBy[run] == key { return Accepted(s.runs[run].commit); }
      return if unknown then Unknown else Refused;
    }

    /** A new checkpoint of the session's run: capture, compare, and save; `changed` is what the comparison finds. */
    method CreateCheckpoint(key: Key, changed: bool) returns (r: Result<(), Failure>)
      requires Valid() && key !in s.checkpoints && MayStart(s, key) && !s.session.phase.Destroyed?
      modifies this
      ensures Valid() && (old(Undamaged()) ==> Undamaged()) && s.session == old(s).session && OthersKept(old(s), s, key)
      ensures old(s).session.runId.None? || !old(s).session.phase.Working? ==> r == Err(InvalidTransition) && s == old(s)
      ensures (!changed ==> r.Err?) && (r.Err? ==> s.checkpoints == old(s).checkpoints)
      ensures r.Err? ==> !r.error.OutcomeUnknown? && (r.error.InvalidTransition? ==> s == old(s))
      ensures r.Ok? ==> s.session.runId.Some? && Rewritten(old(s), key, Checkpoint(s.session.runId.value, None, None, false)).checkpoints == s.checkpoints
    {
      assert Reached(s, history);
      if s.session.runId.None? || !s.session.phase.Working? { return Err(InvalidTransition); }
      var captured: bool, alive: bool := *, *;
      if !captured { return Err(Unavailable); }
      Do(CaptureRecorded(key, s.session.runId.value));
      if !changed { return Err(NoChanges); }
      if !alive { return Err(Died); }
      Do(CheckpointCreated(key, s.session.runId.value));
      r := Ok(());
    }

    /** Publishing a pending checkpoint, with what each outcome saves. */
    method PublishPending(key: Key) returns (r: Result<(), Failure>)
      requires Valid() && Pending(s, key) && s.checkpoints[key].published.None? && !s.session.phase.Destroyed?
      modifies this
      ensures Valid() && (old(Undamaged()) ==> Undamaged()) && OthersKept(old(s), s, key)
      ensures r.Ok? ==> Pending(s, key) && s.checkpoints[key].published.Some? && !s.session.phase.Destroyed? && !s.session.phase.Opening?
      ensures r.Ok? ==> s.checkpoints[key].run == old(s).checkpoints[key].run
      ensures r.Err? ==> PublicationLeft(old(s), s, key, r.error)
    {
      assert Reached(s, history);
      var outcome := Publish(key);
      match outcome {
        case Unanswered => return Err(Died);
        case Unknown =>
          Do(PhaseSaved(Uncertain));
          return Err(OutcomeUnknown);
        case Refused =>
          assert Reached(s, history) && RunRecorded(s, key, s.checkpoints[key]);
          if !IsLive(s, s.checkpoints[key].run) { Do(PublicationFailed); }
          return Err(InvalidTransition);
        case Accepted(commit) =>
          Do(PublishedSaved(key, commit));
          var alive: bool := *;
          if !alive { return Err(Died); }
          Do(PhaseSaved(NeedsReopen));
          return Ok(());
      }
    }

    /** The handler of a failed reopening: the stopped session is retained. */
    method Retain() returns (r: Result<Option<RunId>, Failure>)
      requires Valid() && s.session.pendingKey.Some? && !s.session.phase.Destroyed? && !s.session.phase.Opening?
      modifies this
      ensures Valid() && (old(Undamaged()) ==> Undamaged())
      ensures r == Ok(None) && s == Saved(old(s), old(s).session.(phase := NeedsReopen))
    {
      Do(PhaseSaved(NeedsReopen));
      r := Ok(None);
    }

    /** Back to work on the run recorded as reopened, unless it has ended or the head has moved on. */
    method ResumeReopened(key: Key, next: RunId) returns (r: Result<Option<RunId>, Failure>)
      requires Valid() && Pending(s, key) && s.checkpoints[key].published.Some? && s.checkpoints[key].reopenRun == Some(next)
      requires !s.session.phase.Destroyed? && !s.session.phase.Opening?
      modifies this
      ensures Valid() && (old(Undamaged()) ==> Undamaged())
      ensures OthersKept(old(s), s, key) && SameSource(old(s), s, key)
      ensures Reopened(s, key, r)
    {
      assert Reached(s, history);
      var headMoved: bool := *;
      Do(RunSaved(next));
      Elapse();
      if !s.runs[next].Active? || headMoved {
        r := Retain();
        return;
      }
      Do(Resumed(next));
      var alive: bool := *;
      if !alive { return Err(Died); }
      Do(ResultSaved(key));
      r := Ok(Some(next));
    }

    /** Reopening retries only the saved command, never the checkpoint. */
    method ReopenPending(key: Key) returns (r: Result<Option<RunId>, Failure>)
      requires Valid() && Pending(s, key) && s.checkpoints[key].published.Some?
      requires !s.session.phase.Destroyed? && !s.session.phase.Opening?
      modifies this
      ensures Valid() && (old(Undamaged()) ==> Undamaged())
      ensures OthersKept(old(s), s, key) && SameSource(old(s), s, key)
      ensures Reopened(s, key, r)
    {
      assert Reached(s, history);
      var next: RunId;
      if s.checkpoints[key].reopenRun.Some? {
        next := s.checkpoints[key].reopenRun.value;
      } else {
        var run := Open(Reopen(key));
        if run.None? {
          r := Retain();
          return;
        }
        next := run.value;
      }
      assert Reopen(key) in s.opens && s.opens[Reopen(key)] == next;
      Do(ReopenSaved(key, next));
      var alive: bool := *;
      if !alive { return Err(Died); }
      r := ResumeReopened(key, next);
    }

    /**
     `commitSandbox`, first call or retry. An answer means that the checkpoint was published for this key;
     it names the run the session is back at work on, or none when the stopped session is retained.
     `changed` says that the tree differs from the accepted one or was captured before.
     */
    method CommitSandbox(key: Key, changed: bool) returns (r: Result<Option<RunId>, Failure>)
      requires Valid()
      modifies this
      ensures Valid()
      ensures old(Undamaged() && (Stale(s, key) ==> Live(s) <= s.captureRuns)) ==> Undamaged()
      ensures old(s).session.phase.Destroyed? ==> r == Err(NotFound) && s == old(s)
      ensures Recorded(old(s), key) ==> r == Ok(old(s).checkpoints[key].reopenRun) && r.value.Some? && s == old(s)
      ensures Started(old(s), key) && !MayStart(old(s), key) ==> r == Err(OutcomeUnknown) && s == old(s)
      ensures Started(old(s), key) && MayStart(old(s), key) && key !in old(s).checkpoints && !old(s).session.phase.Working? ==>
        r == Err(InvalidTransition) && s == old(s)
      ensures r.Ok? ==> key in s.checkpoints && PublishedFor(s, key, s.checkpoints[key])
      ensures r.Ok? && !Recorded(old(s), key) ==> Reopened(s, key, r)
      ensures r.Ok? ==> if key in old(s).checkpoints then s.checkpoints[key].run == old(s).checkpoints[key].run
                        else Some(s.checkpoints[key].run) == old(s).session.runId
      ensures OthersKept(old(s), s, key)
      ensures Started(old(s), key) && key !in old(s).checkpoints && !changed ==> r.Err? && key !in s.checkpoints
      ensures r.Err? && key in s.checkpoints && MayStart(old(s), key) && !old(s).session.phase.Destroyed? ==>
        PublicationLeft(old(s).(session := old(s).session.(pendingKey := Some(key))), s, key, r.error)
    {
      assert Reached(s, history);
      if s.session.phase.Destroyed? { return Err(NotFound); }
      if key in s.checkpoints && s.checkpoints[key].result {
        assert Reached(s, history) && RunRecorded(s, key, s.checkpoints[key]);
        return Ok(s.checkpoints[key].reopenRun);
      }
      if !MayStart(s, key) { return Err(OutcomeUnknown); }
      if key !in s.checkpoints {
        var created := CreateCheckpoint(key, changed);
        if created.Err? { return Err(created.error); }
      }
      var alive: bool := *;
      if !alive { return Err(Died); }
      r := CarryThrough(key);
    }

    /** From the save that makes the checkpoint pending on. */
    method CarryThrough(key: Key) returns (r: Result<Option<RunId>, Failure>)
      requires Valid() && Started(s, key) && MayStart(s, key) && key in s.checkpoints
      modifies this
      ensures Valid()
      ensures old(Undamaged() && (Stale(s, key) ==> Live(s) <= s.captureRuns)) ==> Undamaged()
      ensures OthersKept(old(s), s, key)
      ensures r.Ok? ==> PublishedFor(s, key, s.checkpoints[key]) && Reopened(s, key, r) && s.checkpoints[key].run == old(s).checkpoints[key].run
      ensures r.Err? ==> PublicationLeft(old(s).(session := old(s).session.(pendingKey := Some(key))), s, key, r.error)
    {
      Do(PendingSaved(key));
      if s.checkpoints[key].published.None? {
        var published := PublishPending(key);
        if published.Err? { return Err(published.error); }
      }
      assert Reached(s, history);
      r := ReopenPending(key);
      if r.Ok? { assert Reached(s, history) && RunRecorded(s, key, s.checkpoints[key]); }
    }

    /** Recovering the runs of openings whose responses were lost. */
    method Recover() returns (r: Result<(), Failure>)
      requires Valid() && !s.session.phase.Destroyed?
      modifies this
      ensures Valid() && (old(Undamaged()) ==> Undamaged()) && s == old(s).(session := s.session, checkpoints := s.checkpoints)
      ensures s.session.phase == old(s).session.phase && s.session.pendingKey == old(s).session.pendingKey
      ensures r.Ok? ==> (s.session.phase.Opening? && s.session.runId.None? ==> Checkout !in s.opens)
      ensures r.Ok? && s.session.pendingKey.Some? ==>
        var key := s.session.pendingKey.value;
        && Pending(s, key) && s.checkpoints[key].published.Some? && (Reopen(key) in s.opens ==> s.checkpoints[key].reopenRun.Some?)
        && (s.checkpoints[key].reopenRun.Some? ==> s.session.runId == s.checkpoints[key].reopenRun)
    {
      assert Reached(s, history);
      var readable: bool := *;
      if !readable { return Err(OutcomeUnknown); }
      if s.session.phase.Opening? && s.session.runId.None? && Checkout in s.opens { Do(RunSaved(s.opens[Checkout])); }
      if s.session.pendingKey.Some? {
        var key := s.session.pendingKey.value;
        assert Reached(s, history) && RunRecorded(s, key, s.checkpoints[key]);
        if s.checkpoints[key].published.None? { return Err(OutcomeUnknown); }
        if s.checkpoints[key].reopenRun.None? && Reopen(key) in s.opens { Do(ReopenSaved(key, s.opens[Reopen(key)])); }
        if s.checkpoints[key].reopenRun.Some? { Do(RunSaved(s.checkpoints[key].reopenRun.value)); }
      }
      r := Ok(());
    }

    /** Every run of the set aborted unless it has ended; a finalization in progress stops the destruction. */
    method AbortAll(runIds: set<RunId>) returns (r: Result<(), Failure>)
      requires Valid()
      modifies this
      ensures Valid() && (old(Undamaged()) ==> Undamaged()) && s == old(s).(runs := s.runs) && Live(s) <= Live(old(s))
      ensures r.Ok? ==> forall q :: q in runIds ==> !IsLive(s, q)
    {
      var left := runIds;
      while left != {}
        invariant Valid() && (old(Undamaged()) ==> Undamaged()) && s == old(s).(runs := s.runs) && Live(s) <= Live(old(s))
        invariant left <= runIds && forall q :: q in runIds - left ==> q !in Live(s)
        decreases |left|
      {
        var q :| q in left;
        Elapse();
        if q in s.runs && s.runs[q].Finalizing? { return Err(OutcomeUnknown); }
        if q in s.runs && s.runs[q].Active? {
          var aborted: bool := *;
          if !aborted { return Err(Unavailable); }
          ghost var before := s;
          Do(RunMoved(q, Ended));
          assert Live(s) <= Live(before);
        }
        left := left - {q};
      }
      forall q | q in runIds ensures !IsLive(s, q) { assert q !in Live(s); }
      r := Ok(());
    }

    /**
     `destroySandbox`: after safe retries only, success leaves no run of the session active or finalizing.
     `retained` are the runs with a capture not yet disposed of.
     */
    method DestroySandbox(abandon: bool, retained: set<RunId>) returns (r: Result<(), Failure>)
      requires Valid()
      modifies this
      ensures Valid() && (old(Undamaged()) ==> Undamaged())
      ensures old(s).session.phase.Destroyed? ==> r == Err(NotFound) && s == old(s)
      ensures r.Ok? ==> s.session.phase.Destroyed?
      ensures old(s).session.phase.Uncertain? ==> r == Err(OutcomeUnknown) && s == old(s)
      ensures !abandon && old(s).session.phase in {NeedsReopen, Opening} ==> r == Err(OutcomeUnknown) && s == old(s)
      ensures !abandon && old(s).session.pendingKey.Some? && !old(s).session.phase.Destroyed? ==> r == Err(OutcomeUnknown) && s == old(s)
      ensures !abandon && RetainsActive(old(s), retained) && !old(s).session.phase.Destroyed? ==> r == Err(OutcomeUnknown) && s == old(s)
      ensures s.session.phase.Destroyed? && Undamaged() ==> Live(s) == {}
    {
      r := Destroy(abandon, retained);
      assert Reached(s, history);
    }

    /** The destruction's checks and saves. */
    method Destroy(abandon: bool, retained: set<RunId>) returns (r: Result<(), Failure>)
      requires Valid()
      modifies this
      ensures Valid() && (old(Undamaged()) ==> Undamaged())
      ensures old(s).session.phase.Destroyed? ==> r == Err(NotFound) && s == old(s)
      ensures r.Ok? ==> s.session.phase.Destroyed?
      ensures old(s).session.phase.Uncertain? ==> r == Err(OutcomeUnknown) && s == old(s)
      ensures !abandon && old(s).session.phase in {NeedsReopen, Opening} ==> r == Err(OutcomeUnknown) && s == old(s)
      ensures !abandon && old(s).session.pendingKey.Some? && !old(s).session.phase.Destroyed? ==> r == Err(OutcomeUnknown) && s == old(s)
      ensures !abandon && RetainsActive(old(s), retained) && !old(s).session.phase.Destroyed? ==> r == Err(OutcomeUnknown) && s == old(s)
    {
      assert Reached(s, history);
      if s.session.phase.Destroyed? { return Err(NotFound); }
      if s.session.phase.Uncertain? { return Err(OutcomeUnknown); }
      if (s.session.pendingKey.Some? || s.session.phase.NeedsReopen? || s.session.phase.Opening?) && !abandon { return Err(OutcomeUnknown); }
      if !abandon && RetainsActive(s, retained) { return Err(OutcomeUnknown); }
      var known := DestroySet(s);
      r := Recover();
      if r.Err? { return; }
      r := AbortAll(known + DestroySet(s));
      if r.Err? { return; }
      var cleaned: bool := *;
      if !cleaned { return Err(Unavailable); }
      assert forall q :: q in DestroySet(s) ==> !IsLive(s, q);
      Do(DestroyedSaved);
      r := Ok(());
    }

    /** The whole life of a session, whatever its caller retries. */
    method AnyHistory()
      requires Valid() && Undamaged() && s == FRESH
      modifies this
      ensures Valid() && (s.session.phase.Destroyed? && Undamaged() ==> Live(s) == {})
    {
      var run := CheckoutSandbox();
      var n: int := *;
      var steps := if n < 0 then 0 else n;
      for i := 0 to steps
        invariant Valid()
      {
        Elapse();
        var commits: bool, key: Key, changed: bool, abandon: bool, retained: set<RunId> := *, *, *, *, *;
        if commits {
          var committed := CommitSandbox(key, changed);
        } else {
          var destroyed := DestroySandbox(abandon, retained);
        }
      }
      assert Reached(s, history);
    }
  }
}
