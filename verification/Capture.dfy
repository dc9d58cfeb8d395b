/**
 Ownership of immutable captures (src/compat/capture.ts): allocation records, payload
 directories and command journals of one group, across crashes between any two durable steps.
 */
module Capture {
  import opened Manifests
  import opened Prelude

  type CaptureId = nat
  type RunId = nat
  type Key = string
  type JournalRef = string
  /** A request stands for its own digest, as a manifest does. */
  type Request = string

  datatype State = Allocating | Complete | Discarding | Failed | Cleaned

  datatype Allocation = Allocation(
    captureId: CaptureId, request: Request, journalRef: JournalRef, run: Option<RunId>, manifest: seq<Entry>, state: State, retryable: bool)

  /** `state.json` of a payload. */
  datatype Metadata = Metadata(manifest: seq<Entry>, isSealed: bool, key: Key)
  /** A payload directory; intact once every file of its manifest is there. */
  datatype Payload = Payload(metadata: Option<Metadata>, intact: bool)

  datatype Identity = Identity(key: Key, request: Request, journalRef: JournalRef, run: Option<RunId>)
  datatype Source = Source(captureId: CaptureId, manifest: seq<Entry>)

  datatype Failure = KeyReused | ReceiptMismatch | CleanedUp | Unavailable | StillNeeded | Interrupted

  /**
   Everything durable: the owner records of the group by command key, the payload directories,
   the captures named by command journals, and the runs that have ended for good.
   */
  datatype Disk = Disk(
    records: map<Key, Allocation>, payloads: map<CaptureId, Payload>, journals: map<JournalRef, CaptureId>,
    finished: set<RunId>, next: CaptureId)

  // ---------------------------------------------------------------- ownership

  ghost predicate OwnedBy(disk: Disk, key: Key, id: CaptureId) { key in disk.records && disk.records[key].captureId == id }

  predicate Holding(record: Allocation) { !record.state.Failed? && !record.state.Cleaned? }

  ghost predicate HasOwner(disk: Disk, id: CaptureId) { exists key :: OwnedBy(disk, key, id) && Holding(disk.records[key]) }

  /** Every payload directory belongs to a record that is not done with it. */
  ghost predicate Owned(disk: Disk) { forall id :: id in disk.payloads ==> HasOwner(disk, id) }

  /** Capture identities are never reused. */
  ghost predicate Distinct(disk: Disk) {
    && (forall key :: key in disk.records ==> disk.records[key].captureId < disk.next)
    && (forall k, l :: k in disk.records && l in disk.records && disk.records[k].captureId == disk.records[l].captureId ==> k == l)
  }

  ghost predicate Whole(disk: Disk, key: Key, record: Allocation) {
    && record.captureId in disk.payloads
    && disk.payloads[record.captureId] == Payload(Some(Metadata(record.manifest, true, key)), true)
  }

  /** What each state of a record says about its payload. */
  ghost predicate StateTrue(disk: Disk, key: Key, record: Allocation) {
    && (record.state.Complete? ==> Whole(disk, key, record))
    && (record.state.Allocating? && record.captureId in disk.payloads && disk.payloads[record.captureId].metadata.Some? ==>
         var m := disk.payloads[record.captureId].metadata.value;
         m.manifest == record.manifest && m.key == key && (m.isSealed ==> disk.payloads[record.captureId].intact))
    && (record.state.Cleaned? || (record.state.Discarding? && !record.retryable) ==>
         record.run.Some? && record.run.value in disk.finished)
  }

  ghost predicate StatesTrue(disk: Disk) {
    forall key :: key in disk.records ==> StateTrue(disk, key, disk.records[key])
  }

  predicate Terminal(record: Allocation) {
    record.state.Cleaned? || (record.state.Discarding? && !record.retryable)
  }

  predicate Settled(record: Allocation, ref: JournalRef) {
    record.journalRef == ref && (record.state.Complete? || Terminal(record))
  }

  ghost predicate HasSource(disk: Disk, ref: JournalRef, id: CaptureId) {
    exists key :: OwnedBy(disk, key, id) && Settled(disk.records[key], ref)
  }

  /** A capture named in its command journal is whole until the terminal cleanup of its finished run. */
  ghost predicate NamedKept(disk: Disk) { forall ref :: ref in disk.journals ==> HasSource(disk, ref, disk.journals[ref]) }

  ghost predicate Sound(disk: Disk) { Owned(disk) && Distinct(disk) && StatesTrue(disk) && NamedKept(disk) }

  predicate Referenced(disk: Disk, record: Allocation) {
    record.journalRef in disk.journals && disk.journals[record.journalRef] == record.captureId
  }

  lemma ReferencedState(disk: Disk, key: Key)
    requires Sound(disk) && key in disk.records && Referenced(disk, disk.records[key])
    ensures disk.records[key].state.Complete? || Terminal(disk.records[key])
  {
    var ref := disk.records[key].journalRef;
    assert HasSource(disk, ref, disk.journals[ref]);
    var k :| OwnedBy(disk, k, disk.journals[ref]) && Settled(disk.records[k], ref);
    assert k == key;
  }

  // ---------------------------------------------------------------- one durable step at a time

  /** The record of one key replaced, its capture staying the same. */
  ghost predicate RecordStep(before: Disk, after: Disk, key: Key, record: Allocation) {
    && key in before.records && record.captureId == before.records[key].captureId
    && record.journalRef == before.records[key].journalRef
    && after == before.(records := before.records[key := record])
  }

  lemma RecordKeepsOwners(before: Disk, after: Disk, key: Key, record: Allocation)
    requires Owned(before) && RecordStep(before, after, key, record)
    requires Holding(record) || record.captureId !in before.payloads
    ensures Owned(after)
  {
    forall id | id in after.payloads ensures HasOwner(after, id) {
      assert HasOwner(before, id);
      var k :| OwnedBy(before, k, id) && Holding(before.records[k]);
      assert OwnedBy(after, k, id) && Holding(after.records[k]);
    }
  }

  lemma RecordKeepsSources(before: Disk, after: Disk, key: Key, record: Allocation)
    requires Distinct(before) && NamedKept(before) && RecordStep(before, after, key, record)
    requires Referenced(before, record) ==> record.state.Complete? || Terminal(record)
    ensures NamedKept(after)
  {
    forall ref | ref in after.journals ensures HasSource(after, ref, after.journals[ref]) {
      assert HasSource(before, ref, before.journals[ref]);
      var k :| OwnedBy(before, k, before.journals[ref]) && Settled(before.records[k], ref);
      assert OwnedBy(after, k, after.journals[ref]) && Settled(after.records[k], ref);
    }
  }

  lemma RecordKeepsSound(before: Disk, after: Disk, key: Key, record: Allocation)
    requires Sound(before) && RecordStep(before, after, key, record) && StateTrue(before, key, record)
    requires Referenced(before, record) ==> record.state.Complete? || Terminal(record)
    requires Holding(record) || record.captureId !in before.payloads
    ensures Sound(after)
  {
    RecordKeepsOwners(before, after, key, record);
    RecordKeepsSources(before, after, key, record);
    forall k | k in after.records ensures StateTrue(after, k, after.records[k]) {
      if k != key { assert StateTrue(before, k, before.records[k]); }
    }
  }

  /** The payload of one key's capture changed or removed; only records that claim it whole can tell. */
  ghost predicate PayloadStep(before: Disk, after: Disk, key: Key) {
    && key in before.records
    && var id := before.records[key].captureId;
       after == before.(payloads := if id in after.payloads then before.payloads[id := after.payloads[id]] else before.payloads - {id})
  }

  lemma PayloadKeepsSound(before: Disk, after: Disk, key: Key)
    requires Sound(before) && PayloadStep(before, after, key) && Holding(before.records[key])
    requires StateTrue(after, key, before.records[key])
    ensures Sound(after)
  {
    forall c | c in after.payloads ensures HasOwner(after, c) {
      if c == before.records[key].captureId {
        assert OwnedBy(after, key, c) && Holding(after.records[key]);
      } else {
        assert HasOwner(before, c);
        var k :| OwnedBy(before, k, c) && Holding(before.records[k]);
        assert OwnedBy(after, k, c) && Holding(after.records[k]);
      }
    }
    forall k | k in after.records ensures StateTrue(after, k, after.records[k]) {
      if k != key { assert StateTrue(before, k, before.records[k]); }
    }
    forall ref | ref in after.journals ensures HasSource(after, ref, after.journals[ref]) {
      assert HasSource(before, ref, before.journals[ref]);
      var k :| OwnedBy(before, k, before.journals[ref]) && Settled(before.records[k], ref);
      assert OwnedBy(after, k, after.journals[ref]) && Settled(after.records[k], ref);
    }
  }

  /** Between the two, at most one record's state and its payload differ. */
  ghost predicate Disposal(before: Disk, after: Disk, key: Key) {
    && key in before.records && key in after.records
    && after.records == before.records[key := after.records[key]]
    && after.records[key] == before.records[key].(state := after.records[key].state, retryable := after.records[key].retryable)
    && (forall id :: id != before.records[key].captureId ==>
         (id in after.payloads <==> id in before.payloads) && (id in after.payloads ==> after.payloads[id] == before.payloads[id]))
    && after.journals == before.journals && after.finished == before.finished && after.next == before.next
  }

  lemma DisposalChain(a: Disk, b: Disk, c: Disk, key: Key)
    requires Disposal(a, b, key) && Disposal(b, c, key)
    ensures Disposal(a, c, key)
  {
  }

  /** A capture handed out is whole, and the record of its command says so. */
  ghost predicate Returns(disk: Disk, identity: Identity, source: Source) {
    && identity.key in disk.records
    && var record := disk.records[identity.key];
      && record.state.Complete? && record.captureId == source.captureId && record.manifest == source.manifest
      && record.request == identity.request && record.journalRef == identity.journalRef
      && Whole(disk, identity.key, record)
  }

  /** The record of a command may have been replaced; nothing else has changed hands. */
  ghost predicate Touched(before: Disk, after: Disk, key: Key) {
    && after.records.Keys <= before.records.Keys + {key} && before.records.Keys <= after.records.Keys
    && (forall k :: k in before.records && k != key ==> after.records[k] == before.records[k])
    && after.journals == before.journals && after.finished == before.finished && before.next <= after.next
  }

  /** The earlier capture was being disposed of or is, was named by no journal, and none of it is left. */
  ghost predicate ProvenGone(before: Disk, after: Disk, key: Key)
    requires key in before.records
  {
    && (before.records[key].state.Failed? || (before.records[key].state.Discarding? && before.records[key].retryable))
    && !Referenced(before, before.records[key]) && before.records[key].captureId !in after.payloads
  }

  /** The record of the key belongs to another command. */
  predicate Foreign(disk: Disk, identity: Identity) {
    identity.key in disk.records &&
    var record := disk.records[identity.key];
    || record.request != identity.request || record.journalRef != identity.journalRef
    || (identity.run.Some? && record.run.Some? && identity.run != record.run)
  }

  ghost predicate Allocated(before: Disk, after: Disk, identity: Identity, manifest: seq<Entry>) {
    && after == before.(records := after.records, next := before.next + 1)
    && identity.key in after.records
    && after.records == before.records[identity.key := after.records[identity.key]]
    && after.records[identity.key]
      == Allocation(before.next, identity.request, identity.journalRef, identity.run, manifest, Allocating, false)
  }

  lemma GonePayload(disk: Disk, key: Key)
    requires Sound(disk) && (key in disk.records ==> disk.records[key].state.Failed?)
    ensures key in disk.records ==> disk.records[key].captureId !in disk.payloads && !Referenced(disk, disk.records[key])
    ensures disk.next !in disk.payloads
  {
    if key in disk.records {
      if Referenced(disk, disk.records[key]) { ReferencedState(disk, key); }
      forall k | OwnedBy(disk, k, disk.records[key].captureId) ensures k == key { }
      assert !HasOwner(disk, disk.records[key].captureId);
    }
    forall k ensures !OwnedBy(disk, k, disk.next) { }
    assert !HasOwner(disk, disk.next);
  }

  lemma AllocateKeepsSound(before: Disk, after: Disk, identity: Identity, record: Allocation)
    requires Sound(before) && (identity.key in before.records ==> before.records[identity.key].state.Failed?)
    requires record.captureId == before.next && record.state.Allocating?
    requires after == before.(records := before.records[identity.key := record], next := before.next + 1)
    ensures Sound(after)
  {
    GonePayload(before, identity.key);
    forall id | id in after.payloads ensures HasOwner(after, id) {
      assert HasOwner(before, id);
      var k :| OwnedBy(before, k, id) && Holding(before.records[k]);
      assert OwnedBy(after, k, id) && Holding(after.records[k]);
    }
    forall ref | ref in after.journals ensures HasSource(after, ref, after.journals[ref]) {
      assert HasSource(before, ref, before.journals[ref]);
      var k :| OwnedBy(before, k, before.journals[ref]) && Settled(before.records[k], ref);
      assert OwnedBy(after, k, after.journals[ref]) && Settled(after.records[k], ref);
    }
    forall k | k in after.records ensures StateTrue(after, k, after.records[k]) {
      if k != identity.key { assert StateTrue(before, k, before.records[k]); }
    }
  }

  lemma TouchedSince(start: Disk, empty: Disk, opening: Disk, now: Disk, identity: Identity, manifest: seq<Entry>)
    requires if identity.key in start.records then Disposal(start, empty, identity.key) else empty == start
    requires Allocated(empty, opening, identity, manifest) && Disposal(opening, now, identity.key)
    requires identity.key in empty.records ==> empty.records[identity.key].captureId !in empty.payloads
    requires Distinct(empty)
    ensures Touched(start, now, identity.key)
    ensures identity.key in start.records ==> start.records[identity.key].captureId !in now.payloads
  {
  }

  lemma TouchedMore(start: Disk, middle: Disk, now: Disk, key: Key)
    requires Touched(start, middle, key) && Disposal(middle, now, key)
    ensures Touched(start, now, key)
  {
  }

  lemma GoneWhenCleaned(disk: Disk, key: Key)
    requires Sound(disk) && key in disk.records && !Holding(disk.records[key])
    ensures disk.records[key].captureId !in disk.payloads
  {
    forall k | OwnedBy(disk, k, disk.records[key].captureId) ensures k == key { }
    assert !HasOwner(disk, disk.records[key].captureId);
  }

  lemma NothingLeft(disk: Disk)
    requires Sound(disk) && forall k :: k in disk.records ==> disk.records[k].state.Cleaned?
    ensures disk.payloads == map[]
  {
    forall id ensures !HasOwner(disk, id) { }
    assert disk.payloads.Keys == {};
  }

  /** A record keeps the run it has, or takes this one if it had none. */
  predicate BoundTo(before: Allocation, after: Allocation, run: RunId) {
    after == before || (before.run.None? && after == before.(run := Some(run)))
  }

  lemma BindKeepsSound(disk: Disk, key: Key, record: Allocation)
    requires Sound(disk) && key in disk.records && disk.records[key].run.None?
    requires record == disk.records[key].(run := record.run)
    ensures Sound(disk.(records := disk.records[key := record]))
  {
    assert StateTrue(disk, key, disk.records[key]);
    if Referenced(disk, disk.records[key]) { ReferencedState(disk, key); }
    if !Holding(disk.records[key]) { GoneWhenCleaned(disk, key); }
    RecordKeepsSound(disk, disk.(records := disk.records[key := record]), key, record);
  }

  lemma FinishKeepsSound(before: Disk, after: Disk)
    requires Sound(before) && before.finished <= after.finished && after == before.(finished := after.finished)
    ensures Sound(after)
  {
    forall id | id in after.payloads ensures HasOwner(after, id) {
      assert HasOwner(before, id);
      var k :| OwnedBy(before, k, id) && Holding(before.records[k]);
      assert OwnedBy(after, k, id);
    }
    forall ref | ref in after.journals ensures HasSource(after, ref, after.journals[ref]) {
      assert HasSource(before, ref, before.journals[ref]);
      var k :| OwnedBy(before, k, before.journals[ref]) && Settled(before.records[k], ref);
      assert OwnedBy(after, k, after.journals[ref]) && Settled(after.records[k], ref);
    }
    forall k | k in after.records ensures StateTrue(after, k, after.records[k]) { assert StateTrue(before, k, before.records[k]); }
  }

  // ---------------------------------------------------------------- the operations

  class CaptureStore {
    var disk: Disk

    ghost predicate Valid()
      reads this
    {
      Sound(disk)
    }

    constructor ()
      ensures Valid() && disk == Disk(map[], map[], map[], {}, 0)
    {
      disk := Disk(map[], map[], map[], {}, 0);
    }

    /** One atomic replacement of an owner record; the process may die around it. */
    method SaveRecord(key: Key, record: Allocation) returns (alive: bool)
      modifies this
      ensures disk == old(disk).(records := old(disk).records[key := record]) || (!alive && disk == old(disk))
    {
      alive := *;
      var replaced: bool := *;
      if alive || replaced { disk := disk.(records := disk.records[key := record]); }
    }

    /** Removing a directory tree, file by file, possibly cut short. */
    method RemovePayload(key: Key) returns (alive: bool)
      requires Valid() && key in disk.records && disk.records[key].state.Discarding?
      modifies this
      ensures Valid() && Disposal(old(disk), disk, key) && disk.records == old(disk).records
      ensures alive ==> disk.records[key].captureId !in disk.payloads
    {
      ghost var before := disk;
      var id := disk.records[key].captureId;
      alive := *;
      var finished: bool, emptied: bool, touched: bool := *, *, *;
      if alive || finished {
        disk := disk.(payloads := disk.payloads - {id});
      } else if id in disk.payloads {
        var payload := disk.payloads[id];
        disk := disk.(payloads := disk.payloads[id := Payload(if emptied then None else payload.metadata, payload.intact && !touched)]);
      }
      PayloadKeepsSound(before, disk, key);
    }

    /** The lookup and the ownership checks every operation starts with. */
    method Lookup(identity: Identity) returns (r: Result<Option<Allocation>, Failure>)
      ensures r.Err? <==> Foreign(disk, identity)
      ensures r.Ok? ==> r.value == if identity.key in disk.records then Some(disk.records[identity.key]) else None
    {
      if identity.key !in disk.records { return Ok(None); }
      var record := disk.records[identity.key];
      if record.request != identity.request || record.journalRef != identity.journalRef { return Err(KeyReused); }
      if identity.run.Some? && record.run.Some? && identity.run != record.run { return Err(ReceiptMismatch); }
      r := Ok(Some(record));
    }

    /** Saving a new state of a record. */
    method SetState(key: Key, state: State, retryable: bool) returns (alive: bool)
      requires Valid() && key in disk.records
      requires var record := disk.records[key].(state := state, retryable := retryable);
        && StateTrue(disk, key, record)
        && (Referenced(disk, record) ==> state.Complete? || Terminal(record))
        && (Holding(record) || record.captureId !in disk.payloads)
      modifies this
      ensures Valid() && Disposal(old(disk), disk, key) && disk.payloads == old(disk).payloads
      ensures alive ==> disk.records[key].state == state && disk.records[key].retryable == retryable
    {
      var record := disk.records[key].(state := state, retryable := retryable);
      RecordKeepsSound(disk, disk.(records := disk.records[key := record]), key, record);
      alive := SaveRecord(key, record);
    }

    /** Disposal: the intention is durable first, the outcome last. */
    method Discard(key: Key, terminal: bool) returns (r: Result<bool, Failure>)
      requires Valid() && key in disk.records
      requires terminal ==> disk.records[key].run.Some? && disk.records[key].run.value in disk.finished
      modifies this
      ensures Valid() && Disposal(old(disk), disk, key)
      ensures r == Ok(false) <==> !terminal && Referenced(old(disk), old(disk).records[key])
      ensures r == Ok(false) ==> disk == old(disk)
      ensures r.Err? ==> r.error.Interrupted?
      ensures r == Ok(true) ==> disk.records[key].captureId !in disk.payloads
      ensures r == Ok(true) ==> disk.records[key].state == if terminal then Cleaned else Failed
    {
      if !terminal && Referenced(disk, disk.records[key]) { return Ok(false); }
      var alive := SetState(key, Discarding, !terminal);
      if !alive { return Err(Interrupted); }
      ghost var marked := disk;
      alive := RemovePayload(key);
      DisposalChain(old(disk), marked, disk, key);
      if !alive { return Err(Interrupted); }
      ghost var emptied := disk;
      alive := SetState(key, if terminal then Cleaned else Failed, !terminal);
      DisposalChain(old(disk), emptied, disk, key);
      r := if alive then Ok(true) else Err(Interrupted);
    }
 
    /** What an earlier attempt of the same command left: its capture, nothing, or a refusal. */
    method Retained(identity: Identity) returns (r: Result<Option<Source>, Failure>)
      requires Valid()
      modifies this
      ensures Valid() && (if identity.key in old(disk).records then Disposal(old(disk), disk, identity.key) else disk == old(disk))
      ensures r == Ok(None) ==> identity.key !in disk.records || disk.records[identity.key].state.Failed?
      ensures r == Ok(None) && identity.key in old(disk).records ==> ProvenGone(old(disk), disk, identity.key)
      ensures r.Ok? && r.value.Some? ==> Returns(disk, identity, r.value.value)
      ensures Foreign(old(disk), identity) ==> r.Err? && disk == old(disk)
      ensures !Foreign(old(disk), identity) && identity.key in old(disk).records && old(disk).records[identity.key].state.Failed? ==>
        r == Ok(None) && disk == old(disk)
      ensures !Foreign(old(disk), identity) && identity.key in old(disk).records && Terminal(old(disk).records[identity.key]) ==>
        r == Err(CleanedUp) && disk == old(disk)
    {
      var found := Lookup(identity);
      if found.Err? { return Err(found.error); }
      if found.value.None? { return Ok(None); }
      var key, record := identity.key, found.value.value;
      if Referenced(disk, record) { ReferencedState(disk, key); }
      if record.state.Failed? {
        GoneWhenCleaned(disk, key);
        return Ok(None);
      }
      if Terminal(record) { return Err(CleanedUp); }
      if record.state.Discarding? && record.retryable {
        var discarded := Discard(key, false);
        if discarded.Err? { return Err(discarded.error); }
        assert discarded.value;
        return Ok(None);
      }
      if record.captureId !in disk.payloads || disk.payloads[record.captureId].metadata.None? { return Err(Unavailable); }
      var metadata := disk.payloads[record.captureId].metadata.value;
      if !metadata.isSealed || metadata.manifest != record.manifest { return Err(Unavailable); }
      var alive := SetState(key, Complete, record.retryable);
      if !alive { return Err(Interrupted); }
      r := Ok(Some(Source(record.captureId, record.manifest)));
    }

    /** A new record for the command, durable before any directory exists. */
    method Allocate(identity: Identity, manifest: seq<Entry>) returns (alive: bool)
      requires Valid() && (identity.key in disk.records ==> disk.records[identity.key].state.Failed?)
      modifies this
      ensures Valid() && ((!alive && disk == old(disk)) || Allocated(old(disk), disk, identity, manifest))
    {
      var id := disk.next;
      var record := Allocation(id, identity.request, identity.journalRef, identity.run, manifest, Allocating, false);
      var after := disk.(records := disk.records[identity.key := record], next := id + 1);
      AllocateKeepsSound(disk, after, identity, record);
      alive := *;
      var replaced: bool := *;
      if alive || replaced { disk := after; }
    }

    /** The payload directory: its description first, then every file, then the seal. */
    method Build(key: Key) returns (r: Result<(), Failure>, alive: bool)
      requires Valid() && key in disk.records && disk.records[key].state.Allocating? && disk.records[key].captureId !in disk.payloads
      modifies this
      ensures Valid() && Disposal(old(disk), disk, key)
      ensures r.Ok? && alive ==> disk.records[key].state.Complete?
    {
      var record := disk.records[key];
      var described: bool, copied: bool := *, *;
      Put(key, Payload(if described then Some(Metadata(record.manifest, false, key)) else None, false));
      alive := *;
      if !described || !alive { return Err(Interrupted), alive; }
      ghost var prepared := disk;
      Put(key, Payload(Some(Metadata(record.manifest, false, key)), copied));
      DisposalChain(old(disk), prepared, disk, key);
      alive := *;
      if !copied || !alive { return Err(Interrupted), alive; }
      ghost var filled := disk;
      Put(key, Payload(Some(Metadata(record.manifest, true, key)), true));
      DisposalChain(old(disk), filled, disk, key);
      alive := *;
      if !alive { return Err(Interrupted), alive; }
      ghost var closed := disk;
      alive := SetState(key, Complete, false);
      DisposalChain(old(disk), closed, disk, key);
      r := if alive then Ok(()) else Err(Interrupted);
    }

    /** The payload while its record is still allocating. */
    method Put(key: Key, payload: Payload)
      requires Valid() && key in disk.records && disk.records[key].state.Allocating?
      requires payload.metadata.Some? ==>
        payload.metadata.value.manifest == disk.records[key].manifest && payload.metadata.value.key == key
        && (payload.metadata.value.isSealed ==> payload.intact)
      modifies this
      ensures Valid() && disk == old(disk).(payloads := old(disk).payloads[old(disk).records[key].captureId := payload])
      ensures Disposal(old(disk), disk, key)
    {
      ghost var before := disk;
      disk := disk.(payloads := disk.payloads[disk.records[key].captureId := payload]);
      PayloadKeepsSound(before, disk, key);
    }

    /** `captureWorkspace` and `captureInline`: the retained capture of the command, or a new one of what is scanned now. `cut` says that the process died or the disposal of a broken capture did. */
    method Capture(identity: Identity, scan: Option<seq<Entry>>) returns (r: Result<Source, Failure>, ghost cut: bool)
      requires Valid()
      modifies this
      ensures Valid() && Touched(old(disk), disk, identity.key)
      ensures r.Ok? ==> Returns(disk, identity, r.value)
      ensures r.Ok? && identity.key in old(disk).records ==>
        r.value.captureId == old(disk).records[identity.key].captureId || ProvenGone(old(disk), disk, identity.key)
      ensures r.Ok? && r.value.captureId >= old(disk).next ==> Some(r.value.manifest) == scan
      ensures r.Err? && !cut && disk.next != old(disk).next ==>
        && identity.key in disk.records && disk.records[identity.key].state.Failed?
        && disk.records[identity.key].captureId !in disk.payloads
      ensures Foreign(old(disk), identity) ==> r.Err? && disk == old(disk)
      ensures !Foreign(old(disk), identity) && identity.key in old(disk).records && Terminal(old(disk).records[identity.key]) ==>
        r == Err(CleanedUp) && disk == old(disk)
    {
      cut := false;
      var retained := Retained(identity);
      if retained.Err? { return Err(retained.error), cut; }
      if retained.value.Some? { return Ok(retained.value.value), cut; }
      if scan.None? { return Err(Interrupted), cut; }
      var manifest := scan.value;
      ghost var empty := disk;
      GonePayload(disk, identity.key);
      var alive := Allocate(identity, manifest);
      cut := !alive;
      if !alive { return Err(Interrupted), cut; }
      ghost var opening := disk;
      var built;
      built, alive := Build(identity.key);
      cut := !alive;
      TouchedSince(old(disk), empty, opening, disk, identity, manifest);
      if built.Err? {
        if alive {
          ghost var broken := disk;
          var discarded := Discard(identity.key, false);
          cut := discarded.Err?;
          TouchedMore(old(disk), broken, disk, identity.key);
          if discarded.Ok? { assert discarded.value; }
        }
        return Err(built.error), cut;
      }
      if !alive { return Err(Interrupted), cut; }
      r := Ok(Source(disk.records[identity.key].captureId, manifest));
    }

    /** The command journal names the capture just handed out. */
    method Select(identity: Identity, source: Source) returns (alive: bool)
      requires Valid() && Returns(disk, identity, source)
      modifies this
      ensures Valid() && disk == old(disk).(journals := disk.journals)
      ensures disk.journals == old(disk).journals[identity.journalRef := source.captureId] || (!alive && disk == old(disk))
    {
      ghost var before := disk;
      alive := *;
      var replaced: bool := *;
      if alive || replaced {
        disk := disk.(journals := disk.journals[identity.journalRef := source.captureId]);
        forall id | id in disk.payloads ensures HasOwner(disk, id) {
          assert HasOwner(before, id);
          var k :| OwnedBy(before, k, id) && Holding(before.records[k]);
          assert OwnedBy(disk, k, id);
        }
        forall ref | ref in disk.journals ensures HasSource(disk, ref, disk.journals[ref]) {
          if ref == identity.journalRef {
            assert OwnedBy(disk, identity.key, source.captureId) && Settled(disk.records[identity.key], ref);
          } else {
            assert HasSource(before, ref, before.journals[ref]);
            var k :| OwnedBy(before, k, before.journals[ref]) && Settled(before.records[k], ref);
            assert OwnedBy(disk, k, disk.journals[ref]) && Settled(disk.records[k], ref);
          }
        }
        forall k | k in disk.records ensures StateTrue(disk, k, disk.records[k]) { assert StateTrue(before, k, before.records[k]); }
      }
    }

    method DiscardUnselected(identity: Identity) returns (r: Result<(), Failure>)
      requires Valid()
      modifies this
      ensures Valid() && Touched(old(disk), disk, identity.key)
      ensures identity.key in old(disk).records && Referenced(old(disk), old(disk).records[identity.key]) ==> disk == old(disk)
      ensures Foreign(old(disk), identity) ==> r.Err? && disk == old(disk)
      ensures r.Ok? && identity.key in old(disk).records && !Referenced(old(disk), old(disk).records[identity.key]) ==>
        disk.records[identity.key].captureId !in disk.payloads && disk.records[identity.key].state.Failed?
    {
      var found := Lookup(identity);
      if found.Err? { return Err(found.error); }
      if found.value.None? { return Ok(()); }
      ghost var named := Referenced(disk, disk.records[identity.key]);
      var discarded := Discard(identity.key, false);
      if discarded.Ok? && discarded.value { assert discarded == Ok(true); }
      assert discarded.Ok? && !named ==> discarded.value;
      r := if discarded.Ok? then Ok(()) else Err(discarded.error);
    }

    /** A capture may be used by one run only. */
    method BindRun(source: Source, run: RunId) returns (r: Result<(), Failure>)
      requires Valid()
      modifies this
      ensures Valid() && disk == old(disk).(records := disk.records)
      ensures forall k :: k in old(disk).records ==> k in disk.records && BoundTo(old(disk).records[k], disk.records[k], run)
      ensures r.Ok? && source.captureId in disk.payloads && disk.payloads[source.captureId].metadata.Some? ==>
        exists k :: OwnedBy(disk, k, source.captureId) && disk.records[k].run == Some(run)
    {
      if source.captureId !in disk.payloads || disk.payloads[source.captureId].metadata.None? { return Ok(()); }
      var key := disk.payloads[source.captureId].metadata.value.key;
      if key !in disk.records || disk.records[key].captureId != source.captureId { return Err(ReceiptMismatch); }
      var record := disk.records[key];
      if record.run.Some? {
        assert OwnedBy(disk, key, source.captureId);
        return if record.run.value == run then Ok(()) else Err(ReceiptMismatch);
      }
      record := record.(run := Some(run));
      BindKeepsSound(disk, key, record);
      var alive := SaveRecord(key, record);
      if !alive { return Err(Interrupted); }
      assert OwnedBy(disk, key, source.captureId);
      r := Ok(());
    }

    /** One record of the group, once its run has ended for good. */
    method CleanRecord(key: Key) returns (r: Result<(), Failure>)
      requires Valid() && key in disk.records
      modifies this
      ensures Valid() && Disposal(old(disk), disk, key)
      ensures r.Ok? ==> disk.records[key].state.Cleaned? && disk.records[key].captureId !in disk.payloads
      ensures var record := old(disk).records[key];
        r == Err(StillNeeded) <==> !record.state.Cleaned? && (record.run.None? || record.run.value !in old(disk).finished)
      ensures r == Err(StillNeeded) ==> disk == old(disk)
    {
      var record := disk.records[key];
      if record.state.Cleaned? {
        GoneWhenCleaned(disk, key);
        return Ok(());
      }
      if record.run.None? || record.run.value !in disk.finished { return Err(StillNeeded); }
      var discarded := Discard(key, true);
      if discarded.Err? { return Err(discarded.error); }
      assert discarded.value;
      r := Ok(());
    }

    /** Terminal cleanup of the whole group: success leaves no payload behind. */
    method CleanupOwned() returns (r: Result<(), Failure>)
      requires Valid()
      modifies this
      ensures Valid() && disk.journals == old(disk).journals && disk.finished == old(disk).finished
      ensures r.Ok? ==> disk.payloads == map[]
    {
      var left := disk.records.Keys;
      while left != {}
        invariant Valid() && disk.journals == old(disk).journals && disk.finished == old(disk).finished
        invariant left <= disk.records.Keys
        invariant forall k :: k in disk.records && k !in left ==> disk.records[k].state.Cleaned?
        decreases |left|
      {
        var key :| key in left;
        r := CleanRecord(key);
        if r.Err? { return; }
        left := left - {key};
      }
      NothingLeft(disk);
      r := Ok(());
    }

    /** The control store ends a run; runs never come back. */
    method FinishRun(run: RunId)
      requires Valid()
      modifies this
      ensures Valid() && disk == old(disk).(finished := old(disk).finished + {run})
    {
      ghost var before := disk;
      disk := disk.(finished := disk.finished + {run});
      FinishKeepsSound(before, disk);
    }

    /** A command: capture, then either discard what turned out unchanged or name it in the journal. */
    method Command(identity: Identity)
      requires Valid()
      modifies this
      ensures Valid()
    {
      var scan: Option<seq<Entry>> := *;
      var source;
      ghost var cut;
      source, cut := Capture(identity, scan);
      if source.Err? { return; }
      var noChanges: bool := *;
      if noChanges {
        var discarded := DiscardUnselected(identity);
      } else {
        var alive := Select(identity, source.value);
      }
    }

    /** Any sequence of commands, bindings, endings of runs and cleanups, each cut short anywhere. */
    method AnyHistory()
      requires Valid()
      modifies this
      ensures Valid()
    {
      var n: int := *;
      var steps := if n < 0 then 0 else n;
      for i := 0 to steps
        invariant Valid()
      {
        var choice: int := *;
        var identity: Identity := *;
        if choice == 0 {
          Command(identity);
        } else if choice == 1 {
          var source: Source := *;
          var bound := BindRun(source, identity.run.GetOr(0));
        } else if choice == 2 {
          FinishRun(identity.run.GetOr(0));
        } else {
          var cleaned := CleanupOwned();
        }
      }
    }
  }

  /** In every sound state a named capture is whole, or its finished run's cleanup has begun. */
  lemma NamedCapture(disk: Disk, ref: JournalRef) returns (key: Key)
    requires Sound(disk) && ref in disk.journals
    ensures OwnedBy(disk, key, disk.journals[ref]) && disk.records[key].journalRef == ref
    ensures Whole(disk, key, disk.records[key])
      || (disk.records[key].run.Some? && disk.records[key].run.value in disk.finished)
  {
    assert HasSource(disk, ref, disk.journals[ref]);
    key :| OwnedBy(disk, key, disk.journals[ref]) && Settled(disk.records[key], ref);
    assert StateTrue(disk, key, disk.records[key]);
  }

  /** At most one payload directory belongs to a command. */
  lemma OnePayloadPerCommand(disk: Disk, id: CaptureId) returns (key: Key)
    requires Sound(disk) && id in disk.payloads
    ensures OwnedBy(disk, key, id) && forall other :: OwnedBy(disk, other, id) ==> other == key
    ensures forall sibling :: sibling in disk.payloads && OwnedBy(disk, key, sibling) ==> sibling == id
  {
    assert HasOwner(disk, id);
    key :| OwnedBy(disk, key, id) && Holding(disk.records[key]);
  }
}
