/**
 The durable state of one sandbox session (src/services/sandbox.service.ts): its session record,
 its checkpoints, the runs the control store opened for it, and one function for each durable step.
 */
module SandboxJournal {
  import opened Prelude

  type RunId = nat
  type Commit = nat
  type Key = string

  /** The idempotency keys under which this session opens runs. */
  datatype OpenKey = Checkout | Reopen(key: Key)

  datatype RunState = Active | Finalizing | Finalized(commit: Commit) | Ended
  datatype Phase = Opening | Working | Uncertain | NeedsReopen | FailedPhase | Destroyed

  datatype Session = Session(phase: Phase, runId: Option<RunId>, pendingKey: Option<Key>)
  datatype Checkpoint = Checkpoint(run: RunId, published: Option<Commit>, reopenRun: Option<RunId>, result: bool)

  /**
   `opens`, `runs` and `claimedBy` are the control store's: the run opened under each key, every
   run's state, and the checkpoint whose finalization each run accepted. `captureRuns` are the
   runs named by the session's capture records.
   */
  datatype State = State(
    session: Session, checkpoints: map<Key, Checkpoint>, captureRuns: set<RunId>,
    opens: map<OpenKey, RunId>, runs: map<RunId, RunState>, claimedBy: map<RunId, Key>)

  predicate LiveState(run: RunState) { run.Active? || run.Finalizing? }

  predicate IsLive(s: State, r: RunId) { r in s.runs && LiveState(s.runs[r]) }

  function Live(s: State): set<RunId> { set r | r in s.runs && LiveState(s.runs[r]) }

  const FRESH := State(Session(Opening, None, None), map[], {}, map[], map[], map[])

  // ---------------------------------------------------------------- durable steps

  /** The control store's steps and the session's own, each one atomic replacement. */
  datatype Event =
    | OpenAccepted(opening: OpenKey, run: RunId)
    | FinalizationClaimed(key: Key, run: RunId)
    | RunMoved(run: RunId, next: RunState)
    | RunSaved(run: RunId)
    | PhaseSaved(phase: Phase)
    | CaptureRecorded(key: Key, run: RunId)
    | CheckpointCreated(key: Key, run: RunId)
    | PendingSaved(key: Key)
    | PublishedSaved(key: Key, commit: Commit)
    | PublicationFailed
    | ReopenSaved(key: Key, run: RunId)
    | Resumed(run: RunId)
    | ResultSaved(key: Key)
    | DestroyedSaved

  /** The transitions a run makes by itself or by an abort; lifecycle.ts lists them. */
  predicate MayBecome(run: RunState, next: RunState) {
    match run
    case Active => next.Ended?
    case Finalizing => next.Finalized? || next.Ended?
    case _ => false
  }

  /** No other checkpoint is pending. */
  predicate MayStart(s: State, key: Key) { s.session.pendingKey.None? || s.session.pendingKey == Some(key) }

  predicate Pending(s: State, key: Key) { s.session.pendingKey == Some(key) && key in s.checkpoints }

  /** The runs `destroySandbox` looks at: the session's, its captures', and the pending checkpoint's two. */
  function DestroySet(s: State): set<RunId> {
    (if s.session.runId.Some? then {s.session.runId.value} else {}) + s.captureRuns
    + (if s.session.pendingKey.Some? && s.session.pendingKey.value in s.checkpoints then
         var c := s.checkpoints[s.session.pendingKey.value];
         {c.run} + (if c.reopenRun.Some? then {c.reopenRun.value} else {})
       else {})
  }

  /**
   What the code has checked of the durable state when it makes the step. A run that ends between
   the check that it is active and the save that follows is taken to end right after that save.
   */
  predicate Allowed(s: State, e: Event) {
    match e
    case OpenAccepted(opening, run) =>
      && opening !in s.opens && run !in s.runs
      && (match opening
          case Checkout => s.session.phase.Opening? && s.session.runId.None?
          case Reopen(key) => Pending(s, key) && s.checkpoints[key].published.Some?)
    case FinalizationClaimed(key, run) =>
      && Pending(s, key) && s.checkpoints[key] == Checkpoint(run, None, s.checkpoints[key].reopenRun, s.checkpoints[key].result)
      && run in s.runs && s.runs[run].Active?
    case RunMoved(run, next) => run in s.runs && MayBecome(s.runs[run], next)
    case RunSaved(run) =>
      || (s.session.phase.Opening? && s.session.runId.None? && Checkout in s.opens && s.opens[Checkout] == run)
      || (s.session.pendingKey.Some? && Pending(s, s.session.pendingKey.value)
          && s.checkpoints[s.session.pendingKey.value].published.Some?
          && s.checkpoints[s.session.pendingKey.value].reopenRun == Some(run))
    case PhaseSaved(phase) =>
      if s.session.phase.Opening? then phase.Working? && s.session.runId.Some?
      else !s.session.phase.Destroyed? && (phase.Uncertain? || phase.NeedsReopen?)
    case CaptureRecorded(key, run) =>
      key !in s.checkpoints && MayStart(s, key) && s.session.runId == Some(run) && s.session.phase.Working?
    case CheckpointCreated(key, run) =>
      key !in s.checkpoints && MayStart(s, key) && s.session.runId == Some(run) && s.session.phase.Working?
    case PendingSaved(key) =>
      key in s.checkpoints && !s.checkpoints[key].result && !s.session.phase.Destroyed? && MayStart(s, key)
    case PublishedSaved(key, commit) =>
      && Pending(s, key) && s.checkpoints[key].published.None? && s.checkpoints[key].run in s.runs
      && s.runs[s.checkpoints[key].run] == Finalized(commit)
      && s.checkpoints[key].run in s.claimedBy && s.claimedBy[s.checkpoints[key].run] == key
    case PublicationFailed =>
      && s.session.pendingKey.Some? && Pending(s, s.session.pendingKey.value)
      && s.checkpoints[s.session.pendingKey.value].published.None?
      && !IsLive(s, s.checkpoints[s.session.pendingKey.value].run)
    case ReopenSaved(key, run) =>
      Pending(s, key) && s.checkpoints[key].published.Some? && Reopen(key) in s.opens && s.opens[Reopen(key)] == run
    case Resumed(run) =>
      && s.session.pendingKey.Some? && Pending(s, s.session.pendingKey.value)
      && s.checkpoints[s.session.pendingKey.value].published.Some?
      && s.checkpoints[s.session.pendingKey.value].reopenRun == Some(run) && s.session.runId == Some(run)
      && run in s.runs && s.runs[run].Active?
    case ResultSaved(key) =>
      && key in s.checkpoints && s.checkpoints[key].published.Some? && s.checkpoints[key].reopenRun.Some?
      && s.session.runId == s.checkpoints[key].reopenRun
    case DestroyedSaved =>
      && !s.session.phase.Uncertain? && !s.session.phase.Destroyed?
      && (forall r :: r in DestroySet(s) ==> !IsLive(s, r))
      && (s.session.phase.Opening? && s.session.runId.None? ==> Checkout !in s.opens)
      && (s.session.pendingKey.Some? ==>
           var key := s.session.pendingKey.value;
           Pending(s, key) && s.checkpoints[key].published.Some? && (Reopen(key) in s.opens ==> s.checkpoints[key].reopenRun.Some?))
  }

  function Saved(s: State, session: Session): State { s.(session := session) }

  function Rewritten(s: State, key: Key, c: Checkpoint): State { s.(checkpoints := s.checkpoints[key := c]) }

  function Apply(s: State, e: Event): State
    requires Allowed(s, e)
  {
    match e
    case OpenAccepted(opening, run) => s.(opens := s.opens[opening := run], runs := s.runs[run := Active])
    case FinalizationClaimed(key, run) => s.(claimedBy := s.claimedBy[run := key], runs := s.runs[run := Finalizing])
    case RunMoved(run, next) => s.(runs := s.runs[run := next])
    case RunSaved(run) => Saved(s, s.session.(runId := Some(run)))
    case PhaseSaved(phase) => Saved(s, s.session.(phase := phase))
    case CaptureRecorded(key, run) => s.(captureRuns := s.captureRuns + {run})
    case CheckpointCreated(key, run) => Rewritten(s, key, Checkpoint(run, None, None, false))
    case PendingSaved(key) => Saved(s, s.session.(pendingKey := Some(key)))
    case PublishedSaved(key, commit) => Rewritten(s, key, s.checkpoints[key].(published := Some(commit)))
    case PublicationFailed => Saved(s, s.session.(phase := FailedPhase, pendingKey := None))
    case ReopenSaved(key, run) => Rewritten(s, key, s.checkpoints[key].(reopenRun := Some(run)))
    case Resumed(run) => Saved(s, Session(Working, Some(run), None))
    case ResultSaved(key) => Rewritten(s, key, s.checkpoints[key].(result := true))
    case DestroyedSaved => Saved(s, s.session.(phase := Destroyed, pendingKey := None))
  }

  // ---------------------------------------------------------------- the invariant

  /** A live run can be found from the session record alone. */
  ghost predicate Known(s: State, r: RunId) {
    || s.session.runId == Some(r)
    || (s.session.phase.Opening? && s.session.runId.None? && Checkout in s.opens && s.opens[Checkout] == r)
    || (s.session.pendingKey.Some? && Reopen(s.session.pendingKey.value) in s.opens
        && s.opens[Reopen(s.session.pendingKey.value)] == r)
  }

  /**
   A dead end: the pending checkpoint's reopened run has ended, so only destruction is left, and
   whatever is live is named by a capture record.
   */
  ghost predicate Blocked(s: State) {
    || s.session.phase.Destroyed?
    || (&& s.session.pendingKey.Some? && Pending(s, s.session.pendingKey.value)
        && s.checkpoints[s.session.pendingKey.value].published.Some? && s.checkpoints[s.session.pendingKey.value].reopenRun.Some?
        && !IsLive(s, s.checkpoints[s.session.pendingKey.value].reopenRun.value) && Live(s) <= s.captureRuns)
  }

  ghost predicate AllKnown(s: State) { forall r :: IsLive(s, r) ==> Known(s, r) || Blocked(s) }

  ghost predicate RunsReal(s: State) {
    && (forall k :: k in s.opens ==> s.opens[k] in s.runs)
    && (forall r :: r in s.claimedBy ==> r in s.runs && !s.runs[r].Active?)
    && (s.session.runId.Some? ==> s.session.runId.value in s.runs)
  }

  ghost predicate ReopensRecorded(s: State) {
    && (forall key :: Reopen(key) in s.opens ==> key in s.checkpoints && s.checkpoints[key].published.Some?)
    && (forall key :: key in s.checkpoints && s.checkpoints[key].reopenRun.Some? ==>
         Reopen(key) in s.opens && s.opens[Reopen(key)] == s.checkpoints[key].reopenRun.value)
    && (!s.session.phase.Destroyed? ==>
         forall key :: key in s.checkpoints && s.checkpoints[key].published.Some? && s.session.pendingKey != Some(key) ==>
           s.checkpoints[key].reopenRun.Some?)
  }

  /** What a checkpoint tells about the run it was taken from: one left behind unpublished can never be published. */
  ghost predicate CheckpointTrue(s: State, key: Key, c: Checkpoint) {
    && RunRecorded(s, key, c)
    && (c.published.None? && !Blocked(s) ==>
         s.session.runId == Some(c.run) || (!s.runs[c.run].Active? && (c.run in s.claimedBy ==> s.claimedBy[c.run] != key)))
  }

  ghost predicate CheckpointsTrue(s: State) {
    && (forall key :: key in s.checkpoints ==> CheckpointTrue(s, key, s.checkpoints[key]))
    && (s.session.phase.Opening? ==> s.checkpoints == map[] && s.session.pendingKey.None?)
  }

  /** While a published checkpoint is pending the session is at that checkpoint's run or at the reopened one. */
  ghost predicate PendingAtHand(s: State) {
    s.session.pendingKey.Some? ==>
      var key := s.session.pendingKey.value;
      && key in s.checkpoints
      && (s.checkpoints[key].published.Some? ==>
           || s.session.runId == Some(s.checkpoints[key].run)
           || (s.checkpoints[key].reopenRun.Some? && (s.session.runId == s.checkpoints[key].reopenRun || Blocked(s))))
  }

  ghost predicate Sound(s: State) {
    && AllKnown(s) && RunsReal(s) && ReopensRecorded(s) && CheckpointsTrue(s) && PendingAtHand(s)
    && (s.session.phase.Destroyed? ==> Live(s) == {} && s.session.pendingKey.None?)
  }

  /** What the code relies on to go on at all; unlike soundness, every step keeps it. */
  ghost predicate Structure(s: State) {
    && RunsReal(s) && ReopensRecorded(s)
    && (forall key :: key in s.checkpoints ==> RunRecorded(s, key, s.checkpoints[key]))
    && (s.session.phase.Opening? ==> s.checkpoints == map[] && s.session.pendingKey.None?)
    && (s.session.pendingKey.Some? ==> !s.session.phase.Destroyed? && s.session.pendingKey.value in s.checkpoints)
  }

  /** The checkpoint's run was finalized for it, by the one finalization it accepted. */
  predicate PublishedFor(s: State, key: Key, c: Checkpoint) {
    && c.published.Some? && c.run in s.runs && s.runs[c.run] == Finalized(c.published.value)
    && c.run in s.claimedBy && s.claimedBy[c.run] == key
  }

  predicate RunRecorded(s: State, key: Key, c: Checkpoint) {
    && c.run in s.runs
    && (c.published.Some? ==> PublishedFor(s, key, c))
    && (c.result ==> c.published.Some? && c.reopenRun.Some?)
  }

  /**
   A retry of a checkpoint the session has left behind: it is published, its result was never
   saved, it is not pending, and the session has moved on from the run it reopened.
   */
  predicate Stale(s: State, key: Key) {
    && key in s.checkpoints && s.checkpoints[key].published.Some? && !s.checkpoints[key].result
    && s.session.pendingKey != Some(key) && s.session.runId != s.checkpoints[key].reopenRun
  }

  /** The one step that is not safe: marking a stale checkpoint pending while a run no capture names is live. */
  predicate Careful(s: State, e: Event) { e.PendingSaved? ==> !Stale(s, e.key) || Live(s) <= s.captureRuns }

  // ---------------------------------------------------------------- every other step keeps it

  /** Dead ends stay dead ends. */
  lemma BlockedStays(s: State, e: Event)
    requires Sound(s) && Allowed(s, e) && Blocked(s)
    ensures Blocked(Apply(s, e))
  {
    var after := Apply(s, e);
    if e.FinalizationClaimed? || e.RunMoved? { assert Live(after) <= Live(s); }
    else if !e.OpenAccepted? { assert Live(after) == Live(s); }
    if s.session.pendingKey.Some? {
      assert CheckpointTrue(s, s.session.pendingKey.value, s.checkpoints[s.session.pendingKey.value]);
    }
  }

  lemma KnownAfter(s: State, e: Event, q: RunId)
    requires Sound(s) && Allowed(s, e) && IsLive(Apply(s, e), q) && !e.DestroyedSaved?
    ensures Known(Apply(s, e), q) || Blocked(Apply(s, e))
  {
    if Blocked(s) {
      BlockedStays(s, e);
    } else if IsLive(s, q) {
      assert Known(s, q);
      if s.session.pendingKey.Some? && Pending(s, s.session.pendingKey.value) {
        assert CheckpointTrue(s, s.session.pendingKey.value, s.checkpoints[s.session.pendingKey.value]);
      }
    }
  }

  lemma CheckpointAfter(s: State, e: Event, key: Key)
    requires Sound(s) && Allowed(s, e) && key in Apply(s, e).checkpoints
    ensures CheckpointTrue(Apply(s, e), key, Apply(s, e).checkpoints[key])
  {
    if Blocked(s) { BlockedStays(s, e); }
    if key in s.checkpoints { assert CheckpointTrue(s, key, s.checkpoints[key]); }
    if s.session.pendingKey.Some? && Pending(s, s.session.pendingKey.value) {
      assert CheckpointTrue(s, s.session.pendingKey.value, s.checkpoints[s.session.pendingKey.value]);
    }
  }

  lemma RunsRealAfter(s: State, e: Event)
    requires RunsReal(s) && Allowed(s, e)
    requires s.session.pendingKey.Some? ==> ReopensRecorded(s)
    ensures RunsReal(Apply(s, e))
  {
  }

  lemma SoundStructure(s: State)
    requires Sound(s)
    ensures Structure(s)
  {
    forall key | key in s.checkpoints ensures RunRecorded(s, key, s.checkpoints[key]) {
      assert CheckpointTrue(s, key, s.checkpoints[key]);
    }
  }

  lemma StructureAfter(s: State, e: Event)
    requires Structure(s) && Allowed(s, e)
    ensures Structure(Apply(s, e))
  {
    var after := Apply(s, e);
    RunsRealAfter(s, e);
    ReopensAfter(s, e);
    forall key | key in after.checkpoints ensures RunRecorded(after, key, after.checkpoints[key]) {
      if key in s.checkpoints { assert RunRecorded(s, key, s.checkpoints[key]); }
    }
  }

  lemma ReopensAfter(s: State, e: Event)
    requires Structure(s) && Allowed(s, e)
    ensures ReopensRecorded(Apply(s, e))
  {
  }

  lemma PendingAfter(s: State, e: Event)
    requires Sound(s) && Allowed(s, e) && Careful(s, e)
    ensures PendingAtHand(Apply(s, e))
  {
    if Blocked(s) {
      BlockedStays(s, e);
    } else if e.PendingSaved? && Stale(s, e.key) {
      StaleBlocks(s, e.key);
    }
  }

  /** A stale checkpoint's reopened run has ended, so marking it pending is a dead end. */
  lemma StaleBlocks(s: State, key: Key)
    requires Sound(s) && Stale(s, key) && Allowed(s, PendingSaved(key)) && Live(s) <= s.captureRuns
    ensures Blocked(Apply(s, PendingSaved(key)))
  {
    assert Live(Apply(s, PendingSaved(key))) == Live(s);
    assert !Blocked(s);
    var r := s.checkpoints[key].reopenRun.value;
    assert !IsLive(s, r) || Known(s, r);
  }

  /** Everything live is among the runs the destruction looked at. */
  lemma DestroySetComplete(s: State, q: RunId)
    requires Sound(s) && IsLive(s, q)
    ensures !Allowed(s, DestroyedSaved)
  {
    assert q in Live(s);
    if !Blocked(s) {
      assert Known(s, q);
      assert s.session.runId.Some? ==> s.session.runId.value in DestroySet(s);
      if s.session.pendingKey.Some? && Reopen(s.session.pendingKey.value) in s.opens {
        var key := s.session.pendingKey.value;
        assert s.checkpoints[key].reopenRun.Some? ==> s.checkpoints[key].reopenRun.value in DestroySet(s);
      }
    }
  }

  lemma DestroyedDead(s: State)
    requires Sound(s) && Allowed(s, DestroyedSaved)
    ensures Live(s) == {} && Live(Apply(s, DestroyedSaved)) == {}
  {
    forall q ensures q !in Live(s) && !IsLive(s, q) { if IsLive(s, q) { DestroySetComplete(s, q); } }
    assert Live(Apply(s, DestroyedSaved)) == Live(s);
  }

  lemma StepSound(s: State, e: Event)
    requires Sound(s) && Allowed(s, e) && Careful(s, e)
    ensures Sound(Apply(s, e))
  {
    var after := Apply(s, e);
    if e.DestroyedSaved? { DestroyedDead(s); }
    if after.session.phase.Destroyed? && !e.DestroyedSaved? {
      BlockedStays(s, e);
      StillDestroyed(s, e);
    }
    forall q | IsLive(after, q) ensures Known(after, q) || Blocked(after) {
      if !e.DestroyedSaved? { KnownAfter(s, e, q); }
    }
    forall key | key in after.checkpoints ensures CheckpointTrue(after, key, after.checkpoints[key]) { CheckpointAfter(s, e, key); }
    SoundStructure(s);
    StructureAfter(s, e);
    PendingAfter(s, e);
  }

  lemma StillDestroyed(s: State, e: Event)
    requires Sound(s) && Allowed(s, e) && s.session.phase.Destroyed?
    ensures Live(Apply(s, e)) == {} && Apply(s, e).session.pendingKey.None?
  {
    assert forall r :: r in s.runs ==> r !in Live(s);
    assert Live(Apply(s, e)) <= Live(s);
  }

  // ---------------------------------------------------------------- histories

  predicate Possible(s: State, events: seq<Event>)
    decreases |events|
  {
    events == [] || (Allowed(s, events[0]) && Possible(Apply(s, events[0]), events[1..]))
  }

  function After(s: State, events: seq<Event>): State
    requires Possible(s, events)
    decreases |events|
  {
    if events == [] then s else After(Apply(s, events[0]), events[1..])
  }

  ghost predicate AllCareful(s: State, events: seq<Event>)
    requires Possible(s, events)
    decreases |events|
  {
    events == [] || (Careful(s, events[0]) && AllCareful(Apply(s, events[0]), events[1..]))
  }

  lemma {:induction false} HistorySound(s: State, events: seq<Event>)
    requires Sound(s) && Possible(s, events) && AllCareful(s, events)
    ensures Sound(After(s, events))
    decreases |events|
  {
    if events != [] {
      StepSound(s, events[0]);
      HistorySound(Apply(s, events[0]), events[1..]);
    }
  }

  /** Without careless retries, a destroyed session has left no run active or finalizing. */
  lemma DestroyedLeavesNothing(events: seq<Event>)
    requires Possible(FRESH, events) && AllCareful(FRESH, events)
    ensures After(FRESH, events).session.phase.Destroyed? ==> Live(After(FRESH, events)) == {}
  {
    HistorySound(FRESH, events);
  }

  lemma {:induction false} Extend(s: State, events: seq<Event>, e: Event)
    requires Possible(s, events) && Allowed(After(s, events), e)
    ensures Possible(s, events + [e]) && After(s, events + [e]) == Apply(After(s, events), e)
    ensures AllCareful(s, events) && Careful(After(s, events), e) ==> AllCareful(s, events + [e])
    decreases |events|
  {
    if events != [] {
      Extend(Apply(s, events[0]), events[1..], e);
      assert (events + [e])[1..] == events[1..] + [e];
    } else {
      assert (events + [e])[1..] == [];
    }
  }

  lemma {:induction false} ExtendBack(s: State, events: seq<Event>, e: Event)
    requires Possible(s, events) && Allowed(After(s, events), e) && Possible(s, events + [e])
    ensures AllCareful(s, events + [e]) ==> AllCareful(s, events) && Careful(After(s, events), e)
    decreases |events|
  {
    if events != [] {
      assert (events + [e])[1..] == events[1..] + [e];
      ExtendBack(Apply(s, events[0]), events[1..], e);
    }
  }

  /** What follows a retry: every history whose later retries are careful ends well. */
  ghost predicate EndsWell(s: State) {
    forall events :: Possible(s, events) && AllCareful(s, events) ==>
      (After(s, events).session.phase.Destroyed? ==> Live(After(s, events)) == {})
  }

  /** Where a careless retry leads: back to a run that has ended, and from there to destruction. */
  lemma CarelessRetryLoses(s: State, key: Key) returns (events: seq<Event>)
    requires Sound(s) && Allowed(s, PendingSaved(key)) && !Careful(s, PendingSaved(key))
    ensures var next := Apply(s, PendingSaved(key));
      && Possible(next, events) && AllCareful(next, events)
      && After(next, events).session.phase.Destroyed? && Live(After(next, events)) == Live(s) != {}
  {
    var r := s.checkpoints[key].reopenRun.value;
    var lost :| lost in Live(s) && lost !in s.captureRuns;
    assert Known(s, lost) && CheckpointTrue(s, key, s.checkpoints[key]);
    forall q | IsLive(s, q) ensures q == lost { assert Known(s, q); }
    var s1 := Apply(s, PendingSaved(key));
    var s2 := Apply(s1, RunSaved(r));
    var s3 := Apply(s2, PhaseSaved(NeedsReopen));
    assert s3.runs == s.runs && lost !in DestroySet(s3);
    assert forall q :: IsLive(s3, q) <==> IsLive(s, q);
    var s4 := Apply(s3, DestroyedSaved);
    assert lost in Live(s4) && Live(s4) == Live(s);
    events := [];
    Extend(s1, events, RunSaved(r));
    events := events + [RunSaved(r)];
    Extend(s1, events, PhaseSaved(NeedsReopen));
    events := events + [PhaseSaved(NeedsReopen)];
    Extend(s1, events, DestroyedSaved);
    events := events + [DestroyedSaved];
  }

  /**
   Retrying a checkpoint is safe exactly when it is not stale, or every live run is named by a
   capture record, so that destruction still finds it.
   */
  lemma RetrySafeExactly(s: State, key: Key)
    requires Sound(s) && Allowed(s, PendingSaved(key))
    ensures EndsWell(Apply(s, PendingSaved(key))) <==> (Stale(s, key) ==> Live(s) <= s.captureRuns)
  {
    var next := Apply(s, PendingSaved(key));
    if Careful(s, PendingSaved(key)) {
      StepSound(s, PendingSaved(key));
      forall events | Possible(next, events) && AllCareful(next, events)
        ensures After(next, events).session.phase.Destroyed? ==> Live(After(next, events)) == {}
      {
        HistorySound(next, events);
      }
    } else {
      var events := CarelessRetryLoses(s, key);
    }
  }

  // ---------------------------------------------------------------- a history that loses a run

  lemma {:induction false} Append(s: State, first: seq<Event>, second: seq<Event>)
    requires Possible(s, first) && AllCareful(s, first)
    requires Possible(After(s, first), second) && AllCareful(After(s, first), second)
    ensures Possible(s, first + second) && AllCareful(s, first + second)
    ensures After(s, first + second) == After(After(s, first), second)
    decreases |first|
  {
    if first == [] {
      assert first + second == second;
    } else {
      assert (first + second)[1..] == first[1..] + second;
      Append(Apply(s, first[0]), first[1..], second);
    }
  }

  lemma One(s: State, e: Event)
    requires Allowed(s, e) && Careful(s, e)
    ensures Possible(s, [e]) && AllCareful(s, [e]) && After(s, [e]) == Apply(s, e)
  {
    assert [e][1..] == [];
  }

  lemma Two(s: State, d: Event, e: Event)
    requires Allowed(s, d) && Careful(s, d) && Allowed(Apply(s, d), e) && Careful(Apply(s, d), e)
    ensures Possible(s, [d, e]) && AllCareful(s, [d, e]) && After(s, [d, e]) == Apply(Apply(s, d), e)
  {
    One(s, d);
    One(Apply(s, d), e);
    Append(s, [d], [e]);
    assert [d] + [e] == [d, e];
  }

  /** A session at work on an active run, with no checkpoint under this key. */
  predicate AtWork(s: State, key: Key, r: RunId, next: RunId) {
    && s.session == Session(Working, Some(r), None) && key !in s.checkpoints && Reopen(key) !in s.opens
    && r in s.runs && s.runs[r].Active? && next !in s.runs
  }

  /** The same session after the checkpoint was published and its run reopened, but before its result was saved. */
  function Committed(s: State, key: Key, r: RunId, commit: Commit, next: RunId): State {
    State(Session(Working, Some(next), None), s.checkpoints[key := Checkpoint(r, Some(commit), Some(next), false)],
      s.captureRuns + {r}, s.opens[Reopen(key) := next], s.runs[r := Finalized(commit)][next := Active], s.claimedBy[r := key])
  }

  function Claiming(s: State, key: Key, r: RunId): State {
    State(Session(Working, Some(r), Some(key)), s.checkpoints[key := Checkpoint(r, None, None, false)],
      s.captureRuns + {r}, s.opens, s.runs[r := Finalizing], s.claimedBy[r := key])
  }

  lemma Claims(s: State, key: Key, r: RunId, next: RunId) returns (events: seq<Event>)
    requires AtWork(s, key, r, next)
    ensures Possible(s, events) && AllCareful(s, events) && After(s, events) == Claiming(s, key, r)
  {
    Two(s, CaptureRecorded(key, r), CheckpointCreated(key, r));
    events := [CaptureRecorded(key, r), CheckpointCreated(key, r)];
    var t := After(s, events);
    Two(t, PendingSaved(key), FinalizationClaimed(key, r));
    Append(s, events, [PendingSaved(key), FinalizationClaimed(key, r)]);
    events := events + [PendingSaved(key), FinalizationClaimed(key, r)];
    assert s.checkpoints[key := Checkpoint(r, None, None, false)] == Claiming(s, key, r).checkpoints;
  }

  function Publishing(s: State, key: Key, r: RunId, commit: Commit): State {
    State(Session(Working, Some(r), Some(key)), s.checkpoints[key := Checkpoint(r, Some(commit), None, false)],
      s.captureRuns + {r}, s.opens, s.runs[r := Finalized(commit)], s.claimedBy[r := key])
  }

  lemma Publishes(s: State, key: Key, r: RunId, commit: Commit, next: RunId) returns (events: seq<Event>)
    requires AtWork(s, key, r, next)
    ensures Possible(Claiming(s, key, r), events) && AllCareful(Claiming(s, key, r), events)
    ensures After(Claiming(s, key, r), events) == Publishing(s, key, r, commit)
  {
    var t := Claiming(s, key, r);
    Two(t, RunMoved(r, Finalized(commit)), PublishedSaved(key, commit));
    events := [RunMoved(r, Finalized(commit)), PublishedSaved(key, commit)];
    assert t.runs[r := Finalized(commit)] == Publishing(s, key, r, commit).runs;
    assert t.checkpoints[key := Checkpoint(r, Some(commit), None, false)] == Publishing(s, key, r, commit).checkpoints;
  }

  lemma Reopens(s: State, key: Key, r: RunId, commit: Commit, next: RunId) returns (events: seq<Event>)
    requires AtWork(s, key, r, next)
    ensures Possible(Publishing(s, key, r, commit), events) && AllCareful(Publishing(s, key, r, commit), events)
    ensures After(Publishing(s, key, r, commit), events) == Committed(s, key, r, commit, next)
  {
    var t := Publishing(s, key, r, commit);
    Two(t, OpenAccepted(Reopen(key), next), ReopenSaved(key, next));
    events := [OpenAccepted(Reopen(key), next), ReopenSaved(key, next)];
    var u := After(t, events);
    assert u.checkpoints == Committed(s, key, r, commit, next).checkpoints;
    Two(u, RunSaved(next), Resumed(next));
    Append(t, events, [RunSaved(next), Resumed(next)]);
    events := events + [RunSaved(next), Resumed(next)];
  }

  /** A commit that goes through but for its last save. */
  lemma CommitHappens(s: State, key: Key, r: RunId, commit: Commit, next: RunId) returns (events: seq<Event>)
    requires AtWork(s, key, r, next)
    ensures Possible(s, events) && AllCareful(s, events) && After(s, events) == Committed(s, key, r, commit, next)
  {
    var claimed := Claims(s, key, r, next);
    var published := Publishes(s, key, r, commit, next);
    Append(s, claimed, published);
    var reopened := Reopens(s, key, r, commit, next);
    Append(s, claimed + published, reopened);
    events := claimed + published + reopened;
  }

  const STARTED := State(Session(Working, Some(1), None), map[], {}, map[Checkout := 1], map[1 := Active], map[])

  lemma Starts() returns (events: seq<Event>)
    ensures Possible(FRESH, events) && AllCareful(FRESH, events) && After(FRESH, events) == STARTED
  {
    Two(FRESH, OpenAccepted(Checkout, 1), RunSaved(1));
    events := [OpenAccepted(Checkout, 1), RunSaved(1)];
    One(After(FRESH, events), PhaseSaved(Working));
    Append(FRESH, events, [PhaseSaved(Working)]);
    events := events + [PhaseSaved(Working)];
  }

  function LeftBehind(): State {
    var s := Committed(Committed(STARTED, "a", 1, 10, 2), "b", 2, 20, 3);
    Rewritten(s, "b", s.checkpoints["b"].(result := true))
  }

  /** Checkout; commit "a", dying before its result is saved; commit "b" completely. */
  lemma LeavesBehind() returns (events: seq<Event>)
    ensures Possible(FRESH, events) && AllCareful(FRESH, events) && After(FRESH, events) == LeftBehind()
  {
    events := Starts();
    var first := CommitHappens(STARTED, "a", 1, 10, 2);
    Append(FRESH, events, first);
    events := events + first;
    var middle := Committed(STARTED, "a", 1, 10, 2);
    var second := CommitHappens(middle, "b", 2, 20, 3);
    Append(FRESH, events, second);
    events := events + second;
    One(Committed(middle, "b", 2, 20, 3), ResultSaved("b"));
    Append(FRESH, events, [ResultSaved("b")]);
    events := events + [ResultSaved("b")];
  }

  lemma LeftBehindStale()
    ensures Allowed(LeftBehind(), PendingSaved("a")) && !Careful(LeftBehind(), PendingSaved("a"))
    ensures forall r :: r in Live(LeftBehind()) <==> r == 3
  {
    assert 3 in Live(LeftBehind());
  }

  /** Then "a" once more, and destruction: the run reopened by "b" is still active, and the session is gone. */
  lemma LostRun() returns (events: seq<Event>)
    ensures Possible(FRESH, events) && After(FRESH, events).session.phase.Destroyed? && IsLive(After(FRESH, events), 3)
  {
    events := LeavesBehind();
    FreshSound();
    HistorySound(FRESH, events);
    LeftBehindStale();
    var left := LeftBehind();
    Extend(FRESH, events, PendingSaved("a"));
    var rest := CarelessRetryLoses(left, "a");
    AppendAny(FRESH, events + [PendingSaved("a")], rest);
    events := events + [PendingSaved("a")] + rest;
    assert 3 in Live(left);
  }

  lemma FreshSound()
    ensures Sound(FRESH)
  {
  }

  lemma {:induction false} AppendAny(s: State, first: seq<Event>, second: seq<Event>)
    requires Possible(s, first) && Possible(After(s, first), second)
    ensures Possible(s, first + second) && After(s, first + second) == After(After(s, first), second)
    decreases |first|
  {
    if first == [] {
      assert first + second == second;
    } else {
      assert (first + second)[1..] == first[1..] + second;
      AppendAny(Apply(s, first[0]), first[1..], second);
    }
  }
}
