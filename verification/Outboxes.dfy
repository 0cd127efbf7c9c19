/** The client's outbox (apps/plugin/src/sync/outbox.ts): a map of unsettled operations and the next
    device sequence number, changed in place, proved against functions on values. */
module Outboxes {
  import opened Options
  import opened Vault

  datatype OutboxStatus = Queued | Inflight | Conflicted | Rejected
  datatype OutboxEntry = OutboxEntry(op: FileOp, status: OutboxStatus, attempts: nat)

  type Entries = map<OpId, OutboxEntry>
  datatype Outbox = Outbox(entries: Entries, next: int)

  /** Entries that still wait for the server. */
  predicate Waiting(e: OutboxEntry) {
    e.status.Queued? || e.status.Inflight?
  }

  function Stamped(draft: FileOp, deviceId: string, deviceSeq: int): FileOp {
    draft.(deviceId := deviceId, deviceSeq := deviceSeq)
  }

  function Enqueued(o: Outbox, draft: FileOp, deviceId: string): Outbox {
    Outbox(o.entries[draft.opId := OutboxEntry(Stamped(draft, deviceId, o.next), Queued, 0)], o.next + 1)
  }

  function WithStatus(o: Outbox, opId: OpId, status: OutboxStatus): Outbox {
    if opId in o.entries then o.(entries := o.entries[opId := o.entries[opId].(status := status)]) else o
  }

  function MarkedInflight(o: Outbox, opId: OpId): Outbox {
    if opId in o.entries
    then o.(entries := o.entries[opId :=
           o.entries[opId].(status := Inflight, attempts := o.entries[opId].attempts + 1)]) else o
  }

  function Acked(o: Outbox, opId: OpId): Outbox {
    o.(entries := o.entries - {opId})
  }

  predicate HoldsLast(o: Outbox, opId: OpId) {
    opId in o.entries && o.entries[opId].op.deviceSeq == o.next - 1
  }

  function RolledBack(o: Outbox, opId: OpId): Outbox {
    if HoldsLast(o, opId) then Outbox(o.entries - {opId}, o.next - 1) else o
  }

  function MovedDown(e: OutboxEntry, removed: int): OutboxEntry {
    if e.op.deviceSeq > removed then e.(op := e.op.(deviceSeq := e.op.deviceSeq - 1)) else e
  }

  function Removed(o: Outbox, opId: OpId): Outbox {
    if opId !in o.entries then o
    else
      var removed := o.entries[opId].op.deviceSeq;
      Outbox(map id | id in o.entries && id != opId :: MovedDown(o.entries[id], removed), o.next - 1)
  }

  /** The smallest number among entries of the status. */
  predicate IsLowest(entries: Entries, status: OutboxStatus, opId: OpId) {
    && opId in entries && entries[opId].status == status
    && forall id :: id in entries && entries[id].status == status ==>
         entries[opId].op.deviceSeq <= entries[id].op.deviceSeq
  }

  predicate HasStatus(entries: Entries, status: OutboxStatus) {
    exists id :: id in entries && entries[id].status == status
  }

  /** Nothing in flight, and no entry that is not queued above the lowest queued one. */
  predicate MayDiscard(entries: Entries, lowest: OpId)
    requires lowest in entries
  {
    !HasStatus(entries, Inflight) &&
    forall id :: id in entries && entries[id].op.deviceSeq > entries[lowest].op.deviceSeq ==> entries[id].status.Queued?
  }

  function Discarded(o: Outbox, lowest: OpId): Outbox
    requires lowest in o.entries
  {
    Outbox(map id | id in o.entries && !o.entries[id].status.Queued? :: o.entries[id], o.entries[lowest].op.deviceSeq)
  }

  ghost predicate AtLeastAll(entries: Entries, n: int) {
    forall id :: id in entries ==> entries[id].op.deviceSeq < n
  }

  // ---- reloading ----

  /** No later entry has the id of the i-th. */
  ghost predicate IsLast(saved: seq<OutboxEntry>, i: nat)
    requires i < |saved|
  {
    forall j :: i < j < |saved| ==> saved[j].op.opId != saved[i].op.opId
  }

  /** The map holds exactly the last saved entry of each operation id. */
  ghost predicate LastOfEach(saved: seq<OutboxEntry>, entries: Entries) {
    && (forall i :: 0 <= i < |saved| && IsLast(saved, i) ==>
          saved[i].op.opId in entries && entries[saved[i].op.opId] == saved[i])
    && (forall id :: id in entries ==> entries[id] in saved && entries[id].op.opId == id)
  }

  ghost predicate HighestOrZero(saved: seq<OutboxEntry>, n: int) {
    && n >= 0 && (forall e :: e in saved ==> e.op.deviceSeq <= n)
    && (n == 0 || exists e :: e in saved && e.op.deviceSeq == n)
  }

  lemma NoneSaved(saved: seq<OutboxEntry>)
    requires saved == []
    ensures LastOfEach(saved, map[]) && HighestOrZero(saved, 0)
  {
  }

  lemma LastBefore(saved: seq<OutboxEntry>, e: OutboxEntry, i: nat)
    requires i < |saved| && IsLast(saved + [e], i)
    ensures IsLast(saved, i) && e.op.opId != saved[i].op.opId
  {
    assert (saved + [e])[|saved|] == e && (saved + [e])[i] == saved[i];
    forall j | i < j < |saved| ensures saved[j].op.opId != saved[i].op.opId {
      assert (saved + [e])[j] == saved[j];
    }
  }

  lemma OneMoreSaved(saved: seq<OutboxEntry>, e: OutboxEntry, entries: Entries)
    requires LastOfEach(saved, entries)
    ensures LastOfEach(saved + [e], entries[e.op.opId := e])
  {
    var saved', entries' := saved + [e], entries[e.op.opId := e];
    assert saved'[|saved|] == e;
    hide IsLast;
    forall i | 0 <= i < |saved'| && IsLast(saved', i)
      ensures saved'[i].op.opId in entries' && entries'[saved'[i].op.opId] == saved'[i]
    {
      if i < |saved| { LastBefore(saved, e, i); }
    }
  }

  lemma HigherSaved(saved: seq<OutboxEntry>, e: OutboxEntry, n: int)
    requires HighestOrZero(saved, n)
    ensures HighestOrZero(saved + [e], if e.op.deviceSeq > n then e.op.deviceSeq else n)
  {
    assert (saved + [e])[|saved|] == e;
    if n > 0 && e.op.deviceSeq <= n {
      var x :| x in saved && x.op.deviceSeq == n;
      assert x in saved + [e];
    }
  }

  lemma LoadedBelow(saved: seq<OutboxEntry>, entries: Entries, n: int)
    requires LastOfEach(saved, entries) && HighestOrZero(saved, n)
    ensures n >= 0 && AtLeastAll(entries, n + 1)
    ensures (n > 0 ==> exists i :: 0 <= i < |saved| && saved[i].op.deviceSeq == n)
  {
    if n > 0 {
      var e :| e in saved && e.op.deviceSeq == n;
      var i :| 0 <= i < |saved| && saved[i] == e;
    }
  }

  class OutboxManager {
    const deviceId: string
    var entries: Entries
    var nextDeviceSeq: int

    ghost function State(): Outbox
      reads this
    {
      Outbox(entries, nextDeviceSeq)
    }

    /** Reloading keeps the persisted number unless an entry already holds one at or above it. */
    constructor (deviceId: string, nextDeviceSeq: int, saved: seq<OutboxEntry>)
      ensures this.deviceId == deviceId && LastOfEach(saved, entries)
      ensures this.nextDeviceSeq >= nextDeviceSeq && AtLeastAll(entries, this.nextDeviceSeq)
      ensures (forall i :: 0 <= i < |saved| ==> saved[i].op.deviceSeq < nextDeviceSeq) && nextDeviceSeq > 0 ==>
        this.nextDeviceSeq == nextDeviceSeq
      ensures this.nextDeviceSeq != nextDeviceSeq ==>
        this.nextDeviceSeq == 1 || exists i :: 0 <= i < |saved| && saved[i].op.deviceSeq == this.nextDeviceSeq - 1
    {
      hide LastOfEach, HighestOrZero;
      this.deviceId := deviceId;
      var loaded: Entries := map[];
      var maxExisting := 0;
      NoneSaved(saved[..0]);
      for i := 0 to |saved|
        invariant HighestOrZero(saved[..i], maxExisting) && LastOfEach(saved[..i], loaded)
      {
        assert saved[..i + 1] == saved[..i] + [saved[i]];
        OneMoreSaved(saved[..i], saved[i], loaded);
        HigherSaved(saved[..i], saved[i], maxExisting);
        loaded := loaded[saved[i].op.opId := saved[i]];
        if saved[i].op.deviceSeq > maxExisting { maxExisting := saved[i].op.deviceSeq; }
      }
      assert saved[..|saved|] == saved;
      LoadedBelow(saved, loaded, maxExisting);
      this.entries := loaded;
      this.nextDeviceSeq := if nextDeviceSeq <= maxExisting then maxExisting + 1 else nextDeviceSeq;
    }

    method Enqueue(draft: FileOp) returns (op: FileOp)
      modifies this
      ensures op == Stamped(draft, deviceId, old(nextDeviceSeq))
      ensures State() == Enqueued(old(State()), draft, deviceId)
    {
      op := draft.(deviceId := deviceId, deviceSeq := nextDeviceSeq);
      nextDeviceSeq := nextDeviceSeq + 1;
      entries := entries[op.opId := OutboxEntry(op, Queued, 0)];
    }

    method MarkInflight(opId: OpId) returns (entry: Option<OutboxEntry>)
      modifies this
      ensures State() == MarkedInflight(old(State()), opId)
      ensures entry == if opId in entries then Some(entries[opId]) else None
    {
      if opId !in entries { return None; }
      var marked := entries[opId].(status := Inflight, attempts := entries[opId].attempts + 1);
      entries := entries[opId := marked];
      return Some(marked);
    }

    method Reject(opId: OpId, terminal: bool)
      modifies this
      ensures State() == WithStatus(old(State()), opId, if terminal then Rejected else Queued)
    {
      if opId !in entries { return; }
      entries := entries[opId := entries[opId].(status := if terminal then Rejected else Queued)];
    }

    method Conflict(opId: OpId)
      modifies this
      ensures State() == WithStatus(old(State()), opId, Conflicted)
    {
      if opId !in entries { return; }
      entries := entries[opId := entries[opId].(status := Conflicted)];
    }

    method Ack(opId: OpId)
      modifies this
      ensures State() == Acked(old(State()), opId)
    {
      entries := entries - {opId};
    }

    method RollbackLast(opId: OpId) returns (done: bool)
      modifies this
      ensures done == HoldsLast(old(State()), opId)
      ensures State() == RolledBack(old(State()), opId)
    {
      if opId !in entries || entries[opId].op.deviceSeq != nextDeviceSeq - 1 { return false; }
      entries := entries - {opId};
      nextDeviceSeq := nextDeviceSeq - 1;
      return true;
    }

    method RemoveAndReindex(opId: OpId) returns (done: bool)
      modifies this
      ensures done == (opId in old(entries))
      ensures State() == Removed(old(State()), opId)
    {
      if opId !in entries { return false; }
      var removedSeq := entries[opId].op.deviceSeq;
      entries := entries - {opId};
      ghost var rest := entries;
      var todo := entries.Keys;
      while todo != {}
        invariant todo <= entries.Keys == rest.Keys
        invariant nextDeviceSeq == old(nextDeviceSeq)
        invariant forall id :: id in rest ==>
          entries[id] == if id in todo then rest[id] else MovedDown(rest[id], removedSeq)
      {
        var id :| id in todo;
        if entries[id].op.deviceSeq > removedSeq {
          entries := entries[id := entries[id].(op := entries[id].op.(deviceSeq := entries[id].op.deviceSeq - 1))];
        }
        todo := todo - {id};
      }
      nextDeviceSeq := nextDeviceSeq - 1;
      return true;
    }

    /** The entry of the status with the smallest number. */
    method First(status: OutboxStatus) returns (found: Option<OpId>)
      ensures found.Some? ==> IsLowest(entries, status, found.value)
      ensures found.None? <==> !HasStatus(entries, status)
    {
      found := None;
      var todo := entries.Keys;
      while todo != {}
        invariant todo <= entries.Keys
        invariant found.None? ==> forall id :: id in entries && id !in todo ==> entries[id].status != status
        invariant found.Some? ==> found.value in entries && entries[found.value].status == status
        invariant found.Some? ==> forall id :: id in entries && id !in todo && entries[id].status == status ==>
          entries[found.value].op.deviceSeq <= entries[id].op.deviceSeq
      {
        var id :| id in todo;
        if entries[id].status == status && (found.None? || entries[id].op.deviceSeq < entries[found.value].op.deviceSeq)
        {
          found := Some(id);
        }
        todo := todo - {id};
      }
    }

    /** Drops every queued entry. */
    method DeleteQueued() returns (discarded: nat)
      modifies this`entries
      ensures entries == map id | id in old(entries) && !old(entries)[id].status.Queued? :: old(entries)[id]
      ensures discarded == |old(entries)| - |entries|
    {
      ghost var before := entries;
      discarded := 0;
      var todo := entries.Keys;
      while todo != {}
        invariant todo <= before.Keys
        invariant discarded == |before| - |entries|
        invariant forall id :: id in entries <==> id in before && (id in todo || !before[id].status.Queued?)
        invariant forall id :: id in entries ==> entries[id] == before[id]
      {
        var id :| id in todo;
        if entries[id].status == Queued {
          entries := entries - {id};
          discarded := discarded + 1;
        }
        todo := todo - {id};
      }
    }

    /** Drops what was never sent, unless something is in flight or settled above it. */
    method DiscardUnsent() returns (discarded: nat, blocked: bool)
      modifies this
      ensures HasStatus(old(entries), Inflight) ==> State() == old(State()) && discarded == 0 && blocked
      ensures !HasStatus(old(entries), Inflight) && !HasStatus(old(entries), Queued) ==>
        State() == old(State()) && discarded == 0 && !blocked
      ensures !HasStatus(old(entries), Inflight) && HasStatus(old(entries), Queued) ==> exists lowest ::
        && IsLowest(old(entries), Queued, lowest) && blocked == !MayDiscard(old(entries), lowest)
        && State() == if blocked then old(State()) else Discarded(old(State()), lowest)
      ensures discarded == |old(entries)| - |entries|
    {
      var inflight := First(Inflight);
      if inflight.Some? { return 0, true; }
      var lowest := First(Queued);
      if lowest.None? { return 0, false; }
      var low := entries[lowest.value].op.deviceSeq;
      if !MayDiscard(entries, lowest.value) { return 0, true; }
      discarded := DeleteQueued();
      nextDeviceSeq := low;
      return discarded, false;
    }
  }
}
