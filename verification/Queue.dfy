/**
 Mutual exclusion of compatibility commands: the per-file promise queue (src/compat/journal.ts)
 over the in-memory lock table (src/storage/compatibility-lock.ts).
 */
module Queue {
  import opened Prelude

  // ---------------------------------------------------------------- the lock table

  /** One granted lock; releasing it a second time does nothing. */
  class LockHandle {
    const identity: string
    const table: LockTable
    var released: bool

    constructor (identity: string, table: LockTable)
      ensures this.identity == identity && this.table == table && !released
    {
      this.identity := identity;
      this.table := table;
      released := false;
    }

    method Release()
      requires table.Valid() && this in table.granted
      modifies this`released, table`locks
      ensures table.Valid() && released
      ensures table.locks == if old(released) then old(table.locks) else old(table.locks) - {identity}
      ensures table.Live() == old(table.Live()) - {this}
    {
      if !released {
        released := true;
        table.locks := table.locks - {identity};
      }
    }
  }

  /** The set of locked identities of one in-memory catalog, and every handle ever granted. */
  class LockTable {
    var locks: set<string>
    ghost var granted: set<LockHandle>

    /** Locked identities are exactly those of handles not yet released, one handle each. */
    ghost predicate Valid()
      reads this, granted
    {
      && (forall h :: h in granted ==> h.table == this)
      && (forall h :: h in granted && !h.released ==> h.identity in locks)
      && (forall h, g :: h in granted && g in granted && !h.released && !g.released && h.identity == g.identity ==> h == g)
      && (forall i :: i in locks ==> exists h :: h in granted && !h.released && h.identity == i)
    }

    /** The handles that still hold their locks. */
    ghost function Live(): set<LockHandle>
      reads this, granted
    {
      set h | h in granted && !h.released
    }

    constructor ()
      ensures Valid() && locks == {} && granted == {}
    {
      locks, granted := {}, {};
    }

    method Acquire(identity: string) returns (handle: Option<LockHandle>)
      requires Valid()
      modifies this
      ensures Valid()
      ensures handle.None? <==> identity in old(locks)
      ensures handle.None? ==> locks == old(locks) && granted == old(granted)
      ensures handle.Some? ==> fresh(handle.value) && handle.value.identity == identity && !handle.value.released
      ensures handle.Some? ==> handle.value.table == this && locks == old(locks) + {identity} && granted == old(granted) + {handle.value}
      ensures handle.Some? ==> handle.value !in old(granted) && Live() == old(Live()) + {handle.value}
    {
      if identity in locks { return None; }
      locks := locks + {identity};
      var h := new LockHandle(identity, this);
      granted := granted + {h};
      assert forall i :: i in old(locks) ==> exists g :: g in old(granted) && !g.released && g.identity == i;
      handle := Some(h);
    }
  }

  /** Releasing again, even after someone else took the same lock, leaves the later holder's lock in place. */
  method RepeatedRelease(table: LockTable, first: LockHandle)
    requires table.Valid() && first in table.granted && !first.released
    modifies table, first, table.granted
    ensures table.Valid() && first.identity in table.locks
    ensures exists later :: later in table.granted && later != first && !later.released && later.identity == first.identity
  {
    first.Release();
    var later := table.Acquire(first.identity);
    first.Release();
    assert later.value in table.granted && !later.value.released;
  }

  // ---------------------------------------------------------------- the promise queue

  /** Settled calls have finished or thrown; Cleaned ones have also run the code after their await. */
  datatype Status = Waiting | Running(handle: LockHandle) | Settled(ok: bool) | Cleaned

  /** A call of `serialize`, and the call whose promise it chained itself to. */
  datatype Call = Call(file: string, previous: Option<nat>, status: Status)

  predicate Done(call: Call) { call.status.Settled? || call.status.Cleaned? }

  predicate SameFile(calls: seq<Call>, i: nat, j: nat) {
    i < |calls| && j < |calls| && calls[i].file == calls[j].file
  }

  /** A call starts only after every earlier call on its file is done, and its chain reaches back to all of them. */
  ghost predicate InOrder(calls: seq<Call>) {
    && (forall i, j :: 0 <= j < i && SameFile(calls, i, j) && !calls[i].status.Waiting? ==> Done(calls[j]))
    && (forall i, j :: 0 <= j < i && SameFile(calls, i, j) ==>
         if calls[i].previous.None? then Done(calls[j]) else j <= calls[i].previous.value)
    && (forall i :: 0 <= i < |calls| && calls[i].previous.Some? ==>
         calls[i].previous.value < i && SameFile(calls, i, calls[i].previous.value))
  }

  /** `last` names the newest call of each file; the table holds it until it has been cleaned up. */
  ghost predicate QueuesExact(queues: map<string, nat>, calls: seq<Call>, last: map<string, nat>) {
    && (forall i :: 0 <= i < |calls| ==> calls[i].file in last && i <= last[calls[i].file])
    && (forall f :: f in last ==> last[f] < |calls| && calls[last[f]].file == f)
    && (forall f :: f in queues <==> f in last && !calls[last[f]].status.Cleaned?)
    && (forall f :: f in queues ==> queues[f] == last[f])
  }

  lemma Appended(calls: seq<Call>, file: string, previous: Option<nat>)
    requires InOrder(calls)
    requires previous.Some? ==> previous.value < |calls| && calls[previous.value].file == file
    requires forall j :: 0 <= j < |calls| && calls[j].file == file ==>
      if previous.None? then Done(calls[j]) else j <= previous.value
    ensures InOrder(calls + [Call(file, previous, Waiting)])
  {
    var after := calls + [Call(file, previous, Waiting)];
    forall i, j | 0 <= j < i && SameFile(after, i, j) ensures SameFile(calls, i, j) || i == |calls| { }
  }

  /** A status moves forward, out of Waiting only when everything before it is done. */
  ghost predicate Forward(calls: seq<Call>, id: nat, status: Status) {
    && id < |calls| && !status.Waiting? && (Done(calls[id]) ==> status.Settled? || status.Cleaned?)
    && forall j :: 0 <= j < id && SameFile(calls, id, j) ==> Done(calls[j])
  }

  lemma Advanced(calls: seq<Call>, id: nat, status: Status)
    requires InOrder(calls) && Forward(calls, id, status)
    ensures InOrder(calls[id := calls[id].(status := status)])
  {
    var after := calls[id := calls[id].(status := status)];
    forall i, j | 0 <= j < i && SameFile(after, i, j) ensures SameFile(calls, i, j) { }
  }

  lemma EarlierDone(calls: seq<Call>, id: nat)
    requires InOrder(calls) && id < |calls|
    requires calls[id].previous.Some? ==> Done(calls[calls[id].previous.value])
    ensures forall j :: 0 <= j < id && SameFile(calls, id, j) ==> Done(calls[j])
  {
    forall j | 0 <= j < id && SameFile(calls, id, j) ensures Done(calls[j]) {
      if calls[id].previous.Some? && j < calls[id].previous.value {
        assert SameFile(calls, calls[id].previous.value, j);
      }
    }
  }

  /** Running calls hold the live locks, each its own, and nobody else does. */
  ghost predicate HoldersExact(calls: seq<Call>, live: set<LockHandle>, identityOf: string -> string) {
    && (forall i :: 0 <= i < |calls| && calls[i].status.Running? ==>
         calls[i].status.handle in live && calls[i].status.handle.identity == identityOf(calls[i].file))
    && (forall h :: h in live ==> Holds(calls, h))
  }

  ghost predicate Holds(calls: seq<Call>, h: LockHandle) { exists i :: 0 <= i < |calls| && calls[i].status == Running(h) }

  lemma AppendedQueues(queues: map<string, nat>, calls: seq<Call>, last: map<string, nat>, call: Call)
    requires QueuesExact(queues, calls, last) && !call.status.Cleaned?
    ensures QueuesExact(queues[call.file := |calls|], calls + [call], last[call.file := |calls|])
  {
    var after := calls + [call];
    assert forall i :: 0 <= i < |calls| ==> after[i] == calls[i];
  }

  lemma AppendedHolders(calls: seq<Call>, live: set<LockHandle>, identityOf: string -> string, call: Call)
    requires HoldersExact(calls, live, identityOf) && call.status.Waiting?
    ensures HoldersExact(calls + [call], live, identityOf)
  {
    var after := calls + [call];
    forall h | h in live ensures Holds(after, h) {
      assert Holds(calls, h);
      var i :| 0 <= i < |calls| && calls[i].status == Running(h);
      assert after[i].status == Running(h);
    }
  }

  lemma StartedHolders(calls: seq<Call>, live: set<LockHandle>, identityOf: string -> string, id: nat, handle: LockHandle)
    requires HoldersExact(calls, live, identityOf) && id < |calls| && calls[id].status.Waiting?
    requires handle.identity == identityOf(calls[id].file)
    ensures HoldersExact(calls[id := calls[id].(status := Running(handle))], live + {handle}, identityOf)
  {
    var after := calls[id := calls[id].(status := Running(handle))];
    assert after[id].status == Running(handle);
    forall h | h in live ensures Holds(after, h) {
      assert Holds(calls, h);
      var i :| 0 <= i < |calls| && calls[i].status == Running(h);
      assert after[i].status == Running(h);
    }
  }

  lemma StoppedHolders(calls: seq<Call>, live: set<LockHandle>, identityOf: string -> string, id: nat, status: Status)
    requires InOrder(calls) && HoldersExact(calls, live, identityOf) && id < |calls| && Injective(identityOf)
    requires !calls[id].status.Waiting? && !status.Running?
    ensures var left := if calls[id].status.Running? then live - {calls[id].status.handle} else live;
      HoldersExact(calls[id := calls[id].(status := status)], left, identityOf)
  {
    var after := calls[id := calls[id].(status := status)];
    forall h | h in live && calls[id].status != Running(h) ensures Holds(after, h) {
      assert Holds(calls, h);
      var i :| 0 <= i < |calls| && calls[i].status == Running(h);
      assert after[i].status == Running(h);
    }
    forall i | 0 <= i < |calls| && i != id && calls[i].status.Running? && calls[id].status.Running?
      ensures calls[i].status.handle != calls[id].status.handle
    {
      if i < id { assert !SameFile(calls, id, i); } else { assert !SameFile(calls, i, id); }
    }
  }

  ghost predicate Injective(identityOf: string -> string) { forall f, g :: identityOf(f) == identityOf(g) ==> f == g }

  class Serializer {
    const table: LockTable
    const identityOf: string -> string
    var queues: map<string, nat>
    var calls: seq<Call>
    ghost var last: map<string, nat>

    ghost predicate Valid()
      reads this, table, table.granted
    {
      && table.Valid() && Injective(identityOf)
      && InOrder(calls) && QueuesExact(queues, calls, last) && HoldersExact(calls, table.Live(), identityOf)
    }

    constructor (table: LockTable, identityOf: string -> string)
      requires table.Valid() && table.granted == {} && Injective(identityOf)
      ensures Valid() && this.table == table && this.identityOf == identityOf && calls == [] && queues == map[]
    {
      this.table, this.identityOf, queues, calls, last := table, identityOf, map[], [], map[];
    }

    /** Chaining a call to whatever the table holds for its file. */
    method Enqueue(file: string) returns (id: nat)
      requires Valid()
      modifies this`queues, this`calls, this`last
      ensures Valid() && id == |old(calls)|
      ensures calls == old(calls) + [Call(file, if file in old(queues) then Some(old(queues)[file]) else None, Waiting)]
      ensures queues == old(queues)[file := id]
    {
      var previous := if file in queues then Some(queues[file]) else None;
      id := |calls|;
      NextInOrder(file);
      AppendedQueues(queues, calls, last, Call(file, previous, Waiting));
      AppendedHolders(calls, table.Live(), identityOf, Call(file, previous, Waiting));
      calls := calls + [Call(file, previous, Waiting)];
      queues := queues[file := id];
      last := last[file := id];
    }

    lemma NextInOrder(file: string)
      requires Valid()
      ensures InOrder(calls + [Call(file, if file in queues then Some(queues[file]) else None, Waiting)])
    {
      LastDone(file);
      Appended(calls, file, if file in queues then Some(queues[file]) else None);
    }

    /** A file absent from the table has no unfinished call, and one in it names the newest call. */
    lemma LastDone(file: string)
      requires Valid()
      ensures file !in queues ==> forall j :: 0 <= j < |calls| && calls[j].file == file ==> Done(calls[j])
      ensures file in queues ==> forall j :: 0 <= j < |calls| && calls[j].file == file ==> j <= queues[file]
    {
      if file !in queues {
        forall j | 0 <= j < |calls| && calls[j].file == file ensures Done(calls[j]) {
          if j < last[file] { assert SameFile(calls, last[file], j); }
        }
      }
    }

    predicate Ready(id: nat)
      reads this
      requires id < |calls|
    {
      && calls[id].status.Waiting?
      && (calls[id].previous.None? || (calls[id].previous.value < |calls| && Done(calls[calls[id].previous.value])))
    }

    lemma LockFree(id: nat)
      requires Valid() && id < |calls| && Ready(id)
      ensures identityOf(calls[id].file) !in table.locks
    {
      EarlierDone(calls, id);
      forall j | 0 <= j < |calls| && SameFile(calls, id, j) ensures !calls[j].status.Running? {
        if id < j && calls[j].status.Running? { assert SameFile(calls, j, id); }
      }
      forall h | h in table.Live() ensures h.identity != identityOf(calls[id].file) {
        assert Holds(calls, h);
        var j :| 0 <= j < |calls| && calls[j].status == Running(h);
        assert calls[j].file != calls[id].file;
      }
    }

    lemma StatusKeepsQueues(id: nat, status: Status)
      requires id < |calls| && QueuesExact(queues, calls, last) && !calls[id].status.Cleaned? && !status.Cleaned?
      ensures QueuesExact(queues, calls[id := calls[id].(status := status)], last)
    {
    }

    /** The previous promise has settled, one way or the other: the action starts and finds the lock free. */
    method Start(id: nat)
      requires Valid() && id < |calls| && Ready(id)
      modifies this`calls, table
      ensures Valid() && queues == old(queues) && |calls| == |old(calls)|
      ensures calls[id].status.Running? && calls == old(calls)[id := old(calls)[id].(status := calls[id].status)]
    {
      LockFree(id);
      EarlierDone(calls, id);
      var handle := table.Acquire(identityOf(calls[id].file));
      Advanced(calls, id, Running(handle.value));
      StatusKeepsQueues(id, Running(handle.value));
      StartedHolders(calls, old(table.Live()), identityOf, id, handle.value);
      calls := calls[id := calls[id].(status := Running(handle.value))];
    }

    /** The action returned or threw; either way the lock is released. */
    method Finish(id: nat, ok: bool)
      requires Valid() && id < |calls| && calls[id].status.Running?
      modifies this`calls, table`locks, table.granted
      ensures Valid() && queues == old(queues) && calls == old(calls)[id := old(calls)[id].(status := Settled(ok))]
    {
      Advanced(calls, id, Settled(ok));
      StatusKeepsQueues(id, Settled(ok));
      StoppedHolders(calls, table.Live(), identityOf, id, Settled(ok));
      calls[id].status.handle.Release();
      calls := calls[id := calls[id].(status := Settled(ok))];
    }

    lemma CleanedQueues(id: nat)
      requires QueuesExact(queues, calls, last) && id < |calls| && calls[id].status.Settled?
      ensures var file := calls[id].file;
        QueuesExact(if file in queues && queues[file] == id then queues - {file} else queues,
                    calls[id := calls[id].(status := Cleaned)], last)
    {
    }

    /** The caller's `finally`: the entry goes only if it is still this call's. */
    method CleanUp(id: nat)
      requires Valid() && id < |calls| && calls[id].status.Settled?
      modifies this`calls, this`queues
      ensures Valid() && calls == old(calls)[id := old(calls)[id].(status := Cleaned)]
      ensures queues == if calls[id].file in old(queues) && old(queues)[calls[id].file] == id
        then old(queues) - {calls[id].file} else old(queues)
    {
      Advanced(calls, id, Cleaned);
      CleanedQueues(id);
      StoppedHolders(calls, table.Live(), identityOf, id, Cleaned);
      var file := calls[id].file;
      calls := calls[id := calls[id].(status := Cleaned)];
      if file in queues && queues[file] == id { queues := queues - {file}; }
    }

    /** Actions on one file run one at a time. */
    lemma OneAtATime(i: nat, j: nat)
      requires Valid() && SameFile(calls, i, j) && calls[i].status.Running? && calls[j].status.Running?
      ensures i == j
    {
      assert SameFile(calls, j, i);
    }

    /** And in call order: when one has started, everything called before it has settled. */
    lemma InCallOrder(i: nat, j: nat)
      requires Valid() && j < i && SameFile(calls, i, j) && !calls[i].status.Waiting?
      ensures Done(calls[j])
    {
    }

    ghost predicate Newest(file: string, i: nat)
      reads this
    {
      i < |calls| && calls[i].file == file && forall j :: 0 <= j < |calls| && calls[j].file == file ==> j <= i
    }

    /** A file is in the table exactly while its newest call awaits its own clean-up, so always while work is left. */
    lemma EntryExactly(file: string)
      requires Valid()
      ensures file in queues <==> exists i: nat :: Newest(file, i) && !calls[i].status.Cleaned?
      ensures file !in queues ==> forall i :: 0 <= i < |calls| && calls[i].file == file ==> Done(calls[i])
    {
      LastDone(file);
      if file in queues { assert Newest(file, queues[file]); }
      forall i: nat | Newest(file, i) ensures i == last[file] { }
    }

    /** The queue never blocks: the first unfinished call of a file runs or may start. */
    lemma FirstCanProceed(id: nat)
      requires Valid() && id < |calls| && !Done(calls[id])
      requires forall j :: 0 <= j < id && SameFile(calls, id, j) ==> Done(calls[j])
      ensures calls[id].status.Running? || Ready(id)
    {
    }
  }
}
