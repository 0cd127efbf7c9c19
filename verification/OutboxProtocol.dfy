/** One device's outbox against the server (apps/plugin/src/sync/engine.ts with
    packages/server/src/engine/op-processor.ts). Requests may be delivered late, repeatedly, out of
    order or never; replies come back in order, and any of them may be lost. */
module OutboxProtocol {
  import opened Options
  import opened VersionVectors
  import opened Paths
  import opened Vault
  import opened VaultRuns
  import opened LogShape
  import opened Outboxes

  /** sent holds every copy that ever left the client, settled the operations whose acknowledgement
      it has read, drawn every operation id it has drawn. */
  datatype World = World(
    server: State, outbox: Outbox, forced: Option<OpId>,
    drawn: set<OpId>, sent: set<FileOp>, replies: seq<OpResult>, settled: set<OpId>)

  datatype Action =
    | Enqueue(draft: FileOp)
    | Flush(opId: OpId)
    | Force(draft: FileOp)
    | GiveUp
    | Discard(lowest: OpId)
    | Restart
    | Deliver(op: FileOp, mayWrite: bool, now: nat, freshId: string)
    | Receive
    | Lose(i: nat)
    | Others(event: Event)

  // ---- the client's reactions ----

  function OnAck(o: Outbox, opId: OpId, conflictId: Option<string>): Outbox {
    if conflictId.Some? then WithStatus(o, opId, Conflicted) else Acked(o, opId)
  }

  predicate Retried(code: ErrorCode) {
    code.SEQ_GAP? || code.STALE? || code.FILE_ACTIVE?
  }

  function OnReject(o: Outbox, opId: OpId, code: ErrorCode): Outbox {
    if Retried(code) then WithStatus(o, opId, Queued) else Removed(o, opId)
  }

  function OnForcedReject(o: Outbox, opId: OpId): Outbox {
    if HoldsLast(o, opId) then RolledBack(o, opId) else WithStatus(o, opId, Rejected)
  }

  /** What flushing sends: the operation in flight, or else the first queued one. */
  predicate IsNext(entries: Entries, opId: OpId) {
    IsLowest(entries, Inflight, opId) || (!HasStatus(entries, Inflight) && IsLowest(entries, Queued, opId))
  }

  function Flushed(o: Outbox, opId: OpId): Outbox
    requires opId in o.entries
  {
    if o.entries[opId].status.Inflight? then o else MarkedInflight(o, opId)
  }

  function Received(w: World, r: OpResult, rest: seq<OpResult>): World {
    if r.Ack? then
      w.(replies := rest, outbox := OnAck(w.outbox, r.opId, r.conflictId), settled := w.settled + {r.opId},
         forced := if w.forced == Some(r.opId) then None else w.forced)
    else if r.Reject? then
      if w.forced == Some(r.opId) then w.(replies := rest, outbox := OnForcedReject(w.outbox, r.opId), forced := None)
      else w.(replies := rest, outbox := OnReject(w.outbox, r.opId, r.code))
    else w.(replies := rest)
  }

  // ---- steps ----

  ghost predicate Fresh(w: World, opId: OpId) {
    opId !in w.drawn && opId !in w.server.journal.opsById
  }

  ghost predicate Possible(w: World, a: Action, dev: string) {
    match a
    case Enqueue(draft) => Fresh(w, draft.opId)
    case Flush(opId) => IsNext(w.outbox.entries, opId)
    case Force(draft) => w.forced.None? && Fresh(w, draft.opId)
    case GiveUp => w.forced.Some?
    case Discard(lowest) => IsLowest(w.outbox.entries, Queued, lowest) && MayDiscard(w.outbox.entries, lowest)
    case Restart => true
    case Deliver(op, mayWrite, now, freshId) => op in w.sent && freshId !in w.server.conflicts.at && freshId != ""
    case Receive => |w.replies| > 0
    case Lose(i) => i < |w.replies|
    case Others(e) => Enabled(w.server, e) && (e.Submit? ==> e.op.deviceId != dev && e.op.opId !in w.drawn)
  }

  ghost predicate NonePending(o: Outbox) {
    forall id :: id in o.entries ==> !Waiting(o.entries[id])
  }

  /** What the run theorems ask of forced operations: none is sent while others are pending, and one
      whose refusal is read still holds the highest number, so that it can be rolled back. */
  ghost predicate InTurn(w: World, a: Action) {
    && (a.Force? ==> NonePending(w.outbox))
    && (a.Receive? && |w.replies| > 0 && w.replies[0].Reject? && w.forced == Some(w.replies[0].opId) ==>
          HoldsLast(w.outbox, w.replies[0].opId))
  }

  ghost function Next(w: World, a: Action, dev: string): World
    requires Possible(w, a, dev)
  {
    match a
    case Enqueue(draft) => w.(outbox := Enqueued(w.outbox, draft, dev), drawn := w.drawn + {draft.opId})
    case Flush(opId) => w.(outbox := Flushed(w.outbox, opId), sent := w.sent + {w.outbox.entries[opId].op})
    case Force(draft) =>
      w.(outbox := MarkedInflight(Enqueued(w.outbox, draft, dev), draft.opId), drawn := w.drawn + {draft.opId},
         sent := w.sent + {Stamped(draft, dev, w.outbox.next)}, forced := Some(draft.opId))
    case GiveUp => w.(forced := None)
    case Discard(lowest) => w.(outbox := Discarded(w.outbox, lowest))
    case Restart => w.(forced := None, replies := [])
    case Deliver(op, mayWrite, now, freshId) =>
      var (s, r) := Process(w.server, op, mayWrite, now, freshId);
      w.(server := s, replies := w.replies + [r])
    case Receive => Received(w, w.replies[0], w.replies[1..])
    case Lose(i) => w.(replies := w.replies[..i] + w.replies[i + 1..])
    case Others(e) => w.(server := Step(w.server, e))
  }

  // ---- invariants ----

  ghost function Last(j: Journal, dev: string): int {
    if dev in j.devices then j.devices[dev].lastDeviceSeq else 0
  }

  ghost predicate HoldsNumber(entries: Entries, n: int) {
    exists id :: id in entries && Waiting(entries[id]) && entries[id].op.deviceSeq == n
  }

  /** The pending entries hold exactly the numbers from low up to next, one each. */
  ghost predicate Stream(o: Outbox, low: int) {
    && 1 <= low <= o.next
    && (forall id :: id in o.entries && Waiting(o.entries[id]) ==> low <= o.entries[id].op.deviceSeq < o.next)
    && (forall n :: low <= n < o.next ==> HoldsNumber(o.entries, n))
    && (forall x, y :: x in o.entries && y in o.entries && x != y && Waiting(o.entries[x]) && Waiting(o.entries[y]) ==>
          o.entries[x].op.deviceSeq != o.entries[y].op.deviceSeq)
  }

  /** Every entry is the device's own; one that is not pending is conflicted, lies below the pending
      ones, and its acknowledgement has been read. */
  ghost predicate Owned(o: Outbox, low: int, dev: string, drawn: set<OpId>, settled: set<OpId>) {
    forall id :: id in o.entries ==>
      && o.entries[id].op.opId == id && o.entries[id].op.deviceId == dev && id in drawn
      && (!Waiting(o.entries[id]) ==>
            o.entries[id].status.Conflicted? && o.entries[id].op.deviceSeq < low && id in settled)
  }

  /** A copy of a pending operation that has left the client is the lowest pending one, unchanged;
      whatever is in flight has left. */
  ghost predicate SentIsLowest(o: Outbox, low: int, sent: set<FileOp>) {
    && (forall op :: op in sent && op.opId in o.entries && Waiting(o.entries[op.opId]) ==>
          o.entries[op.opId].op == op && op.deviceSeq == low)
    && (forall id :: id in o.entries && o.entries[id].status.Inflight? ==> o.entries[id].op in sent)
  }

  ghost predicate SentCopies(sent: set<FileOp>, dev: string, drawn: set<OpId>, last: int) {
    forall op :: op in sent ==> op.deviceId == dev && op.opId in drawn && op.deviceSeq <= last + 1
  }

  /** The server's records under the client's ids and device are copies the client sent. */
  ghost predicate Recorded(opsById: map<OpId, StoredOp>, dev: string, drawn: set<OpId>, sent: set<FileOp>, last: int) {
    forall id :: id in opsById ==>
      && (id in drawn ==> opsById[id].deviceId == dev)
      && (opsById[id].deviceId == dev ==> opsById[id].payload in sent && opsById[id].deviceSeq <= last)
  }

  ghost predicate GoodReply(r: OpResult, opsById: map<OpId, StoredOp>, sent: set<FileOp>, settled: set<OpId>) {
    match r
    case Ack(id, _, _, _) => id in opsById && opsById[id].result == r
    case Reject(id, code, _) => !code.SEQ_GAP? && id !in settled && exists op :: op in sent && op.opId == id
    case Thrown => true
  }

  /** Replies agree with the log, and no rejection of an operation comes after its acknowledgement. */
  ghost predicate GoodReplies(replies: seq<OpResult>, opsById: map<OpId, StoredOp>, sent: set<FileOp>,
          settled: set<OpId>) {
    && (forall i :: 0 <= i < |replies| ==> GoodReply(replies[i], opsById, sent, settled))
    && (forall i, k :: 0 <= i < k < |replies| && replies[i].Ack? && replies[k].Reject? ==>
          replies[i].opId != replies[k].opId)
  }

  ghost predicate ForcedInflight(o: Outbox, forced: Option<OpId>) {
    forced.Some? ==> forced.value in o.entries && o.entries[forced.value].status.Inflight?
  }

  /** The client's side, given the last number the server has accepted. */
  ghost predicate ClientGood(o: Outbox, low: int, last: int, dev: string, drawn: set<OpId>, sent: set<FileOp>,
          settled: set<OpId>) {
    Stream(o, low) && low <= last + 1 && Owned(o, low, dev, drawn, settled) && SentIsLowest(o, low, sent)
  }

  ghost predicate ServerGood(j: Journal, dev: string, drawn: set<OpId>, sent: set<FileOp>, settled: set<OpId>) {
    && LogShape.LogShape(j) && SentCopies(sent, dev, drawn, Last(j, dev))
    && Recorded(j.opsById, dev, drawn, sent, Last(j, dev))
    && settled <= j.opsById.Keys
  }

  ghost predicate Good(w: World, low: int, dev: string) {
    && ServerGood(w.server.journal, dev, w.drawn, w.sent, w.settled)
    && ClientGood(w.outbox, low, Last(w.server.journal, dev), dev, w.drawn, w.sent, w.settled)
    && GoodReplies(w.replies, w.server.journal.opsById, w.sent, w.settled)
    && ForcedInflight(w.outbox, w.forced)
  }

  /** The device id is not one a room uses. */
  ghost predicate RealDevice(dev: string) {
    forall f :: CollabDevice(f) != dev
  }

  // ---- client steps ----

  lemma EnqueueKeeps(o: Outbox, draft: FileOp, low: int, last: int, dev: string, drawn: set<OpId>, sent: set<FileOp>,
          settled: set<OpId>)
    requires ClientGood(o, low, last, dev, drawn, sent, settled) && SentCopies(sent, dev, drawn, last)
    requires draft.opId !in drawn
    ensures ClientGood(Enqueued(o, draft, dev), low, last, dev, drawn + {draft.opId}, sent, settled)
  {
    var o' := Enqueued(o, draft, dev);
    assert draft.opId !in o.entries;
    forall n | low <= n < o'.next ensures HoldsNumber(o'.entries, n) {
      if n == o.next {
        assert Waiting(o'.entries[draft.opId]);
      } else {
        assert HoldsNumber(o.entries, n);
        var id :| id in o.entries && Waiting(o.entries[id]) && o.entries[id].op.deviceSeq == n;
        assert o'.entries[id] == o.entries[id];
      }
    }
  }

  lemma StreamRestatus(o: Outbox, entry: OutboxEntry, opId: OpId, low: int)
    requires Stream(o, low) && opId in o.entries && Waiting(o.entries[opId])
    requires entry.op == o.entries[opId].op && Waiting(entry)
    ensures Stream(o.(entries := o.entries[opId := entry]), low)
  {
    var o' := o.(entries := o.entries[opId := entry]);
    forall n | low <= n < o'.next ensures HoldsNumber(o'.entries, n) {
      assert HoldsNumber(o.entries, n);
      var id :| id in o.entries && Waiting(o.entries[id]) && o.entries[id].op.deviceSeq == n;
      assert Waiting(o'.entries[id]) && o'.entries[id].op.deviceSeq == n;
    }
  }

  /** Sending the lowest pending entry, or setting it back to queued, moves nothing. */
  lemma RestatusKeeps(o: Outbox, entry: OutboxEntry, opId: OpId, low: int, last: int, dev: string, drawn: set<OpId>,
                      sent: set<FileOp>, sent': set<FileOp>, settled: set<OpId>)
    requires ClientGood(o, low, last, dev, drawn, sent, settled)
    requires opId in o.entries && Waiting(o.entries[opId]) && o.entries[opId].op.deviceSeq == low
    requires entry.op == o.entries[opId].op && Waiting(entry)
    requires sent' == sent + {entry.op} || (sent' == sent && entry.status.Queued?)
    ensures ClientGood(o.(entries := o.entries[opId := entry]), low, last, dev, drawn, sent', settled)
  {
    StreamRestatus(o, entry, opId, low);
    hide Stream;
  }

  /** What is flushed is the lowest pending entry. */
  lemma NextIsLow(o: Outbox, opId: OpId, low: int, last: int, dev: string, drawn: set<OpId>, sent: set<FileOp>,
          settled: set<OpId>)
    requires ClientGood(o, low, last, dev, drawn, sent, settled) && IsNext(o.entries, opId)
    ensures o.entries[opId].op.deviceSeq == low
  {
    if o.entries[opId].status.Queued? {
      assert HoldsNumber(o.entries, low);
      var id :| id in o.entries && Waiting(o.entries[id]) && o.entries[id].op.deviceSeq == low;
    }
  }

  lemma FlushKeeps(o: Outbox, opId: OpId, low: int, last: int, dev: string, drawn: set<OpId>, sent: set<FileOp>,
          settled: set<OpId>)
    requires ClientGood(o, low, last, dev, drawn, sent, settled) && IsNext(o.entries, opId)
    ensures o.entries[opId].op.deviceSeq == low
    ensures ClientGood(Flushed(o, opId), low, last, dev, drawn, sent + {o.entries[opId].op}, settled)
  {
    NextIsLow(o, opId, low, last, dev, drawn, sent, settled);
    RestatusKeeps(o, Flushed(o, opId).entries[opId], opId, low, last, dev, drawn, sent, sent + {o.entries[opId].op},
                  settled);
    hide ClientGood;
    assert Flushed(o, opId) == o.(entries := o.entries[opId := Flushed(o, opId).entries[opId]]);
  }

  lemma StreamSettle(o: Outbox, o': Outbox, opId: OpId, low: int)
    requires Stream(o, low) && opId in o.entries && Waiting(o.entries[opId]) && o.entries[opId].op.deviceSeq == low
    requires o' == Acked(o, opId) || o' == WithStatus(o, opId, Conflicted)
    ensures Stream(o', low + 1)
  {
    forall n | low + 1 <= n < o'.next ensures HoldsNumber(o'.entries, n) {
      assert HoldsNumber(o.entries, n);
      var id :| id in o.entries && Waiting(o.entries[id]) && o.entries[id].op.deviceSeq == n;
      assert id in o'.entries && o'.entries[id] == o.entries[id];
    }
  }

  lemma OwnedSettle(o: Outbox, o': Outbox, opId: OpId, low: int, dev: string, drawn: set<OpId>, settled: set<OpId>)
    requires Owned(o, low, dev, drawn, settled) && opId in o.entries && o.entries[opId].op.deviceSeq == low
    requires o' == Acked(o, opId) || o' == WithStatus(o, opId, Conflicted)
    ensures Owned(o', low + 1, dev, drawn, settled + {opId})
  {
  }

  lemma SentSettle(o: Outbox, o': Outbox, opId: OpId, low: int, sent: set<FileOp>)
    requires Stream(o, low) && SentIsLowest(o, low, sent)
    requires opId in o.entries && Waiting(o.entries[opId]) && o.entries[opId].op.deviceSeq == low
    requires o' == Acked(o, opId) || o' == WithStatus(o, opId, Conflicted)
    ensures SentIsLowest(o', low + 1, sent)
  {
    forall op | op in sent && op.opId in o'.entries ensures !Waiting(o'.entries[op.opId]) {
      assert op.opId in o.entries;
    }
  }

  /** Only the lowest pending entry can have left the client. */
  lemma OthersUnsent(o: Outbox, low: int, sent: set<FileOp>, opId: OpId)
    requires Stream(o, low) && SentIsLowest(o, low, sent)
    requires opId in o.entries && Waiting(o.entries[opId]) && o.entries[opId].op.deviceSeq == low
    ensures forall op :: op in sent && op.opId in o.entries && op.opId != opId ==> !Waiting(o.entries[op.opId])
    ensures forall id :: id in o.entries && o.entries[id].op.opId == id && o.entries[id].status.Inflight? ==> id == opId
  {
  }

  /** The lowest pending entry leaves the stream, because it is acknowledged. */
  lemma SettleKeeps(o: Outbox, o': Outbox, opId: OpId, low: int, last: int, dev: string, drawn: set<OpId>,
          sent: set<FileOp>, settled: set<OpId>)
    requires ClientGood(o, low, last, dev, drawn, sent, settled) && low <= last
    requires opId in o.entries && Waiting(o.entries[opId]) && o.entries[opId].op.deviceSeq == low
    requires o' == Acked(o, opId) || o' == WithStatus(o, opId, Conflicted)
    ensures ClientGood(o', low + 1, last, dev, drawn, sent, settled + {opId})
  {
    StreamSettle(o, o', opId, low);
    OwnedSettle(o, o', opId, low, dev, drawn, settled);
    SentSettle(o, o', opId, low, sent);
    hide Stream, Owned, SentIsLowest;
  }

  /** The lowest pending entry is removed and the others move down. */
  lemma RemoveKeeps(o: Outbox, opId: OpId, low: int, last: int, dev: string, drawn: set<OpId>, sent: set<FileOp>,
          settled: set<OpId>)
    requires ClientGood(o, low, last, dev, drawn, sent, settled)
    requires opId in o.entries && Waiting(o.entries[opId]) && o.entries[opId].op.deviceSeq == low
    ensures ClientGood(Removed(o, opId), low, last, dev, drawn, sent, settled)
  {
    StreamRemove(o, opId, low);
    OthersUnsent(o, low, sent, opId);
    hide Stream;
  }

  lemma StreamRemove(o: Outbox, opId: OpId, low: int)
    requires Stream(o, low) && opId in o.entries && Waiting(o.entries[opId]) && o.entries[opId].op.deviceSeq == low
    ensures Stream(Removed(o, opId), low)
  {
    var o' := Removed(o, opId);
    forall n | low <= n < o'.next ensures HoldsNumber(o'.entries, n) {
      assert HoldsNumber(o.entries, n + 1);
      var id :| id in o.entries && Waiting(o.entries[id]) && o.entries[id].op.deviceSeq == n + 1;
      assert id in o'.entries && Waiting(o'.entries[id]) && o'.entries[id].op.deviceSeq == n;
    }
  }

  lemma DiscardKeeps(o: Outbox, lowest: OpId, low: int, last: int, dev: string, drawn: set<OpId>, sent: set<FileOp>,
          settled: set<OpId>)
    requires ClientGood(o, low, last, dev, drawn, sent, settled) && IsLowest(o.entries, Queued, lowest)
    requires MayDiscard(o.entries, lowest)
    ensures ClientGood(Discarded(o, lowest), low, last, dev, drawn, sent, settled)
  {
    assert HoldsNumber(o.entries, low);
    var id :| id in o.entries && Waiting(o.entries[id]) && o.entries[id].op.deviceSeq == low;
    assert o.entries[id].status.Queued?;
  }

  /** Replies about operations that are no longer pending change nothing that matters. */
  lemma LateAckKeeps(o: Outbox, opId: OpId, conflictId: Option<string>, low: int, last: int, dev: string,
          drawn: set<OpId>, sent: set<FileOp>, settled: set<OpId>)
    requires ClientGood(o, low, last, dev, drawn, sent, settled) && (opId in o.entries ==> !Waiting(o.entries[opId]))
    ensures ClientGood(OnAck(o, opId, conflictId), low, last, dev, drawn, sent, settled + {opId})
  {
    var o' := OnAck(o, opId, conflictId);
    forall n | low <= n < o'.next ensures HoldsNumber(o'.entries, n) {
      assert HoldsNumber(o.entries, n);
      var id :| id in o.entries && Waiting(o.entries[id]) && o.entries[id].op.deviceSeq == n;
      assert id in o'.entries && o'.entries[id] == o.entries[id];
    }
  }

  // ---- reading a reply ----

  lemma SentWaiting(o: Outbox, opId: OpId, low: int, last: int, dev: string, drawn: set<OpId>, sent: set<FileOp>,
          settled: set<OpId>)
    requires ClientGood(o, low, last, dev, drawn, sent, settled) && opId in o.entries && opId !in settled
    requires exists op :: op in sent && op.opId == opId
    ensures Waiting(o.entries[opId]) && o.entries[opId].op.deviceSeq == low && o.entries[opId].op in sent
  {
  }

  /** An accepted operation that is still pending was recorded exactly as the client holds it. */
  lemma AcceptedIsOwn(j: Journal, o: Outbox, opId: OpId, low: int, dev: string, drawn: set<OpId>, sent: set<FileOp>,
          settled: set<OpId>)
    requires ServerGood(j, dev, drawn, sent, settled) && ClientGood(o, low, Last(j, dev), dev, drawn, sent, settled)
    requires opId in j.opsById && opId in o.entries && Waiting(o.entries[opId])
    ensures j.opsById[opId].payload == o.entries[opId].op && o.entries[opId].op.deviceSeq == low <= Last(j, dev)
  {
    var e := j.opsById[opId];
    assert InLog(j.log, e) && e.opId == opId;
    assert EntryShape(j.log[e.vaultSeq - 1], e.vaultSeq - 1);
    hide Stream;
  }

  lemma TailGood(replies: seq<OpResult>, opsById: map<OpId, StoredOp>, sent: set<FileOp>, settled: set<OpId>)
    requires |replies| > 0 && GoodReplies(replies, opsById, sent, settled)
    ensures GoodReply(replies[0], opsById, sent, settled)
    ensures GoodReplies(replies[1..], opsById, sent, if replies[0].Ack? then settled + {replies[0].opId} else settled)
  {
    var settled' := if replies[0].Ack? then settled + {replies[0].opId} else settled;
    forall i | 0 <= i < |replies| - 1 ensures GoodReply(replies[1..][i], opsById, sent, settled') {
      assert replies[1..][i] == replies[i + 1] && GoodReply(replies[i + 1], opsById, sent, settled);
    }
  }

  lemma {:induction false} AckClient(j: Journal, o: Outbox, opId: OpId, conflictId: Option<string>, low: int,
          dev: string, drawn: set<OpId>, sent: set<FileOp>, settled: set<OpId>) returns (low': int)
    requires ServerGood(j, dev, drawn, sent, settled) && ClientGood(o, low, Last(j, dev), dev, drawn, sent, settled)
    requires opId in j.opsById
    ensures ClientGood(OnAck(o, opId, conflictId), low', Last(j, dev), dev, drawn, sent, settled + {opId})
  {
    hide ClientGood, ServerGood;
    if opId in o.entries && Waiting(o.entries[opId]) {
      AcceptedIsOwn(j, o, opId, low, dev, drawn, sent, settled);
      SettleKeeps(o, OnAck(o, opId, conflictId), opId, low, Last(j, dev), dev, drawn, sent, settled);
      low' := low + 1;
    } else {
      LateAckKeeps(o, opId, conflictId, low, Last(j, dev), dev, drawn, sent, settled);
      low' := low;
    }
  }

  lemma SettledServer(j: Journal, opId: OpId, dev: string, drawn: set<OpId>, sent: set<FileOp>, settled: set<OpId>)
    requires ServerGood(j, dev, drawn, sent, settled) && opId in j.opsById
    ensures ServerGood(j, dev, drawn, sent, settled + {opId})
  {
    hide LogShape.LogShape, Recorded, SentCopies;
  }

  lemma AckForced(o: Outbox, forced: Option<OpId>, opId: OpId, conflictId: Option<string>)
    requires ForcedInflight(o, forced)
    ensures ForcedInflight(OnAck(o, opId, conflictId), if forced == Some(opId) then None else forced)
  {
  }

  lemma {:induction false} AckKeeps(w: World, low: int, dev: string) returns (low': int)
    requires Good(w, low, dev) && |w.replies| > 0 && w.replies[0].Ack?
    ensures Good(Received(w, w.replies[0], w.replies[1..]), low', dev)
  {
    hide ClientGood, GoodReplies, ServerGood, ForcedInflight, OnAck, Last;
    var r, j := w.replies[0], w.server.journal;
    TailGood(w.replies, j.opsById, w.sent, w.settled);
    low' := AckClient(j, w.outbox, r.opId, r.conflictId, low, dev, w.drawn, w.sent, w.settled);
    SettledServer(j, r.opId, dev, w.drawn, w.sent, w.settled);
    AckForced(w.outbox, w.forced, r.opId, r.conflictId);
  }

  lemma RejectClient(o: Outbox, opId: OpId, code: ErrorCode, low: int, last: int, dev: string, drawn: set<OpId>,
          sent: set<FileOp>, settled: set<OpId>)
    requires ClientGood(o, low, last, dev, drawn, sent, settled) && opId !in settled
    requires exists op :: op in sent && op.opId == opId
    ensures ClientGood(OnReject(o, opId, code), low, last, dev, drawn, sent, settled)
    ensures ClientGood(Removed(o, opId), low, last, dev, drawn, sent, settled)
  {
    hide ClientGood;
    if opId in o.entries {
      SentWaiting(o, opId, low, last, dev, drawn, sent, settled);
      RemoveKeeps(o, opId, low, last, dev, drawn, sent, settled);
      RestatusKeeps(o, o.entries[opId].(status := Queued), opId, low, last, dev, drawn, sent, sent, settled);
    }
  }

  /** The outbox after a rejection is read, and who is still waited for. */
  lemma RejectForced(o: Outbox, forced: Option<OpId>, opId: OpId, code: ErrorCode)
    requires ForcedInflight(o, forced) && AtLeastAll(o.entries, o.next)
    requires forced == Some(opId) ==> HoldsLast(o, opId)
    ensures forced == Some(opId) ==> OnForcedReject(o, opId) == Removed(o, opId)
    ensures forced != Some(opId) ==> ForcedInflight(OnReject(o, opId, code), forced)
  {
    if forced == Some(opId) {
      assert RolledBack(o, opId) == Removed(o, opId);
    }
  }

  lemma BelowNext(o: Outbox, low: int, last: int, dev: string, drawn: set<OpId>, sent: set<FileOp>, settled: set<OpId>)
    requires ClientGood(o, low, last, dev, drawn, sent, settled)
    ensures AtLeastAll(o.entries, o.next)
  {
  }

  lemma {:induction false} RejectKeeps(w: World, low: int, dev: string)
    requires Good(w, low, dev) && |w.replies| > 0 && w.replies[0].Reject? && InTurn(w, Receive)
    ensures Good(Received(w, w.replies[0], w.replies[1..]), low, dev)
  {
    hide ClientGood, GoodReplies, ServerGood, OnReject, OnForcedReject, Removed, Last;
    var r := w.replies[0];
    TailGood(w.replies, w.server.journal.opsById, w.sent, w.settled);
    RejectClient(w.outbox, r.opId, r.code, low, Last(w.server.journal, dev), dev, w.drawn, w.sent, w.settled);
    BelowNext(w.outbox, low, Last(w.server.journal, dev), dev, w.drawn, w.sent, w.settled);
    RejectForced(w.outbox, w.forced, r.opId, r.code);
  }

  // ---- the server's steps ----

  /** Records are only ever added. */
  ghost predicate Extends(opsById: map<OpId, StoredOp>, opsById': map<OpId, StoredOp>) {
    forall id :: id in opsById ==> id in opsById' && opsById'[id] == opsById[id]
  }

  lemma PrepareNeverGap(s: State, op: FileOp, now: nat, freshId: string)
    requires Prepare(s, op, now, freshId).Failure?
    ensures Prepare(s, op, now, freshId).error != Sync(SEQ_GAP)
  {
    hide UniquePath, NormalizePath, CaseFold, Dominates, IsConcurrent, CreateConflict, UpdatedRefs, SideRef;
  }

  /** A copy the client sent is never ahead of the stream, so it is never refused as a gap. */
  lemma AdmissionReply(j: Journal, op: FileOp, mayWrite: bool, dev: string, drawn: set<OpId>, sent: set<FileOp>,
          settled: set<OpId>)
    requires ServerGood(j, dev, drawn, sent, settled) && op in sent && RealDevice(dev) && op.opId !in j.opsById
    requires Admission(j, op, mayWrite).Some?
    ensures GoodReply(Admission(j, op, mayWrite).value, j.opsById, sent, settled)
    ensures Admission(j, op, mayWrite).value.Reject? ==> Admission(j, op, mayWrite).value.opId == op.opId
  {
    var r := Admission(j, op, mayWrite).value;
    if (op.deviceId, op.deviceSeq) in j.opsByDeviceSeq {
      var e := j.opsByDeviceSeq[(op.deviceId, op.deviceSeq)];
      assert InLog(j.log, e);
      assert EntryShape(j.log[e.vaultSeq - 1], e.vaultSeq - 1);
      assert j.opsById[e.opId] == e;
    }
    hide LogShape.LogShape, Recorded;
  }

  lemma RecordedMore(opsById: map<OpId, StoredOp>, e: StoredOp, op: FileOp, dev: string, drawn: set<OpId>,
          sent: set<FileOp>, last: int)
    requires Recorded(opsById, dev, drawn, sent, last) && SentCopies(sent, dev, drawn, last)
    requires e.payload == op && op in sent && e.deviceId == op.deviceId && e.deviceSeq == last + 1
    ensures Recorded(opsById[op.opId := e], dev, drawn, sent, last + 1) && SentCopies(sent, dev, drawn, last + 1)
  {
  }

  lemma {:induction false} RecordView(j: Journal, op: FileOp, e: Effect, mayWrite: bool, dev: string, drawn: set<OpId>,
          sent: set<FileOp>, settled: set<OpId>)
    requires ServerGood(j, dev, drawn, sent, settled) && op in sent && RealDevice(dev) && op.opId !in j.opsById
    requires Admission(j, op, mayWrite).None?
    ensures ServerGood(Record(j, op, e), dev, drawn, sent, settled) && Last(Record(j, op, e), dev) == Last(j, dev) + 1
    ensures Extends(j.opsById, Record(j, op, e).opsById)
    ensures GoodReply(AckOf(j, op, e), Record(j, op, e).opsById, sent, settled)
  {
    hide LogShape.LogShape, InsertBySeq, Recorded;
    assert CollabDevice(op.fileId) != dev && op.deviceId == dev;
    Admitted(j, op, mayWrite);
    hide Admission, SentCopies;
    RecordKeepsShape(j, op, e);
    RecordedMore(j.opsById, EntryOf(j, op, e), op, dev, drawn, sent, Last(j, dev));
  }

  lemma {:induction false} ProcessView(s: State, op: FileOp, mayWrite: bool, now: nat, freshId: string, dev: string,
          drawn: set<OpId>, sent: set<FileOp>, settled: set<OpId>)
    requires ServerGood(s.journal, dev, drawn, sent, settled) && op in sent && RealDevice(dev)
    ensures var (s', r) := Process(s, op, mayWrite, now, freshId);
      && ServerGood(s'.journal, dev, drawn, sent, settled) && Last(s.journal, dev) <= Last(s'.journal, dev)
      && Extends(s.journal.opsById, s'.journal.opsById) && GoodReply(r, s'.journal.opsById, sent, settled)
      && (r.Reject? ==> r.opId !in s.journal.opsById)
  {
    var j := s.journal;
    ProcessCases(s, op, mayWrite, now, freshId);
    hide Process, Record, StoredContent;
    if op.opId in j.opsById {
      RecordedReply(j, op.opId);
      hide ServerGood, Prepare, Admission;
    } else if Admission(j, op, mayWrite).Some? {
      AdmissionReply(j, op, mayWrite, dev, drawn, sent, settled);
      hide ServerGood, Prepare, Admission;
    } else if Prepare(s, op, now, freshId).Failure? {
      PrepareNeverGap(s, op, now, freshId);
      hide Prepare, Admission, LogShape.LogShape;
    } else {
      RecordView(j, op, Prepare(s, op, now, freshId).value, mayWrite, dev, drawn, sent, settled);
      hide ServerGood, Prepare, Admission, AckOf;
    }
  }

  lemma RecordedReply(j: Journal, opId: OpId)
    requires LogShape.LogShape(j) && opId in j.opsById
    ensures j.opsById[opId].result.Ack? && j.opsById[opId].result.opId == opId
  {
    var e := j.opsById[opId];
    assert InLog(j.log, e);
    assert EntryShape(j.log[e.vaultSeq - 1], e.vaultSeq - 1);
  }

  lemma MoreReplies(replies: seq<OpResult>, r: OpResult, opsById: map<OpId, StoredOp>, opsById': map<OpId, StoredOp>,
          sent: set<FileOp>, settled: set<OpId>)
    requires GoodReplies(replies, opsById, sent, settled) && Extends(opsById, opsById')
    requires GoodReply(r, opsById', sent, settled)
    requires r.Reject? ==> r.opId !in opsById
    ensures GoodReplies(replies + [r], opsById', sent, settled)
  {
    forall i | 0 <= i < |replies| ensures GoodReply(replies[i], opsById', sent, settled) {
      assert GoodReply(replies[i], opsById, sent, settled);
    }
    forall i, k | 0 <= i < k < |replies| + 1 && (replies + [r])[i].Ack? && (replies + [r])[k].Reject?
      ensures (replies + [r])[i].opId != (replies + [r])[k].opId
    {
      assert GoodReply(replies[i], opsById, sent, settled);
    }
  }

  lemma ClientLater(o: Outbox, low: int, last: int, last': int, dev: string, drawn: set<OpId>, sent: set<FileOp>,
          settled: set<OpId>)
    requires ClientGood(o, low, last, dev, drawn, sent, settled) && last <= last'
    ensures ClientGood(o, low, last', dev, drawn, sent, settled)
  {
  }

  lemma {:induction false} DeliverKeeps(w: World, a: Action, low: int, dev: string)
    requires Good(w, low, dev) && RealDevice(dev) && a.Deliver? && Possible(w, a, dev)
    ensures Good(Next(w, a, dev), low, dev)
  {
    var (s, r) := Process(w.server, a.op, a.mayWrite, a.now, a.freshId);
    ProcessView(w.server, a.op, a.mayWrite, a.now, a.freshId, dev, w.drawn, w.sent, w.settled);
    hide Process;
    MoreReplies(w.replies, r, w.server.journal.opsById, s.journal.opsById, w.sent, w.settled);
    ClientLater(w.outbox, low, Last(w.server.journal, dev), Last(s.journal, dev), dev, w.drawn, w.sent, w.settled);
    hide ServerGood, ClientGood, GoodReplies, ForcedInflight, Last;
  }

  // ---- the other devices ----

  /** What other devices do leaves the device's own stream and records alone. */
  lemma {:induction false} OthersView(s: State, e: Event, dev: string, drawn: set<OpId>)
    requires e.Submit? ==> e.op.deviceId != dev && e.op.opId !in drawn
    requires LogShape.LogShape(s.journal)
    ensures Last(Step(s, e).journal, dev) == Last(s.journal, dev)
    ensures Extends(s.journal.opsById, Step(s, e).journal.opsById)
    ensures forall id :: id in Step(s, e).journal.opsById && id !in s.journal.opsById ==>
      id !in drawn && Step(s, e).journal.opsById[id].deviceId != dev
  {
    hide LogShape.LogShape;
    if e.Submit? {
      ProcessCases(s, e.op, e.mayWrite, e.now, e.freshId);
      hide Prepare, StoredContent, Admission, InsertBySeq, Process;
    } else if !e.Register? && !e.Revoke? {
      OthersKeepJournal(s, e);
      hide OtherStep;
    }
  }

  lemma OthersServer(j: Journal, j': Journal, dev: string, drawn: set<OpId>, sent: set<FileOp>, settled: set<OpId>)
    requires ServerGood(j, dev, drawn, sent, settled) && LogShape.LogShape(j') && Last(j', dev) == Last(j, dev)
    requires Extends(j.opsById, j'.opsById)
    requires forall id :: id in j'.opsById && id !in j.opsById ==> id !in drawn && j'.opsById[id].deviceId != dev
    ensures ServerGood(j', dev, drawn, sent, settled)
  {
    hide LogShape.LogShape, Last;
  }

  lemma {:induction false} OthersKeep(w: World, e: Event, low: int, dev: string)
    requires Good(w, low, dev) && Possible(w, Others(e), dev)
    ensures Good(Next(w, Others(e), dev), low, dev)
  {
    hide Step, ClientGood, ForcedInflight, Last, GoodReplies, Recorded, SentCopies, LogShape.LogShape, Extends;
    var j, j' := w.server.journal, Step(w.server, e).journal;
    StepKeepsShape(w.server, e);
    OthersView(w.server, e, dev, w.drawn);
    OthersServer(j, j', dev, w.drawn, w.sent, w.settled);
    RepliesLater(w.replies, j.opsById, j'.opsById, w.sent, w.settled);
  }

  lemma RepliesLater(replies: seq<OpResult>, opsById: map<OpId, StoredOp>, opsById': map<OpId, StoredOp>,
          sent: set<FileOp>, settled: set<OpId>)
    requires GoodReplies(replies, opsById, sent, settled) && Extends(opsById, opsById')
    ensures GoodReplies(replies, opsById', sent, settled)
  {
    forall i | 0 <= i < |replies| ensures GoodReply(replies[i], opsById', sent, settled) {
      assert GoodReply(replies[i], opsById, sent, settled);
    }
  }

  // ---- the client's own steps in the world ----

  /** More ids, or one more copy that is not ahead of the stream. */
  lemma ServerSideGrows(w: World, drawn: set<OpId>, sent: set<FileOp>, low: int, dev: string)
    requires Good(w, low, dev) && w.drawn <= drawn && w.sent <= sent
    requires forall id :: id in drawn && id !in w.drawn ==> id !in w.server.journal.opsById
    requires forall op :: op in sent && op !in w.sent ==> op.deviceId == dev && op.opId in drawn && op.deviceSeq <= low
    ensures ServerGood(w.server.journal, dev, drawn, sent, w.settled)
    ensures GoodReplies(w.replies, w.server.journal.opsById, sent, w.settled)
  {
    hide LogShape.LogShape, Stream, Owned, SentIsLowest, ForcedInflight;
    forall i | 0 <= i < |w.replies| ensures GoodReply(w.replies[i], w.server.journal.opsById, sent, w.settled) {
      assert GoodReply(w.replies[i], w.server.journal.opsById, w.sent, w.settled);
    }
  }

  lemma ForcedUntouched(o: Outbox, forced: Option<OpId>, draft: FileOp, low: int, last: int, dev: string,
          drawn: set<OpId>, sent: set<FileOp>, settled: set<OpId>)
    requires ClientGood(o, low, last, dev, drawn, sent, settled) && ForcedInflight(o, forced) && draft.opId !in drawn
    ensures ForcedInflight(Enqueued(o, draft, dev), forced)
  {
    hide Stream, SentIsLowest;
  }

  lemma EnqueueStep(w: World, draft: FileOp, low: int, dev: string)
    requires Good(w, low, dev) && Possible(w, Enqueue(draft), dev)
    ensures Good(Next(w, Enqueue(draft), dev), low, dev)
  {
    EnqueueKeeps(w.outbox, draft, low, Last(w.server.journal, dev), dev, w.drawn, w.sent, w.settled);
    ServerSideGrows(w, w.drawn + {draft.opId}, w.sent, low, dev);
    ForcedUntouched(w.outbox, w.forced, draft, low, Last(w.server.journal, dev), dev, w.drawn, w.sent, w.settled);
    hide ClientGood, ServerGood, GoodReplies, ForcedInflight, Last, Enqueued;
  }

  lemma FlushStep(w: World, opId: OpId, low: int, dev: string)
    requires Good(w, low, dev) && Possible(w, Flush(opId), dev)
    ensures Good(Next(w, Flush(opId), dev), low, dev)
  {
    hide Stream, SentIsLowest, ServerGood, GoodReplies, Last;
    var op := w.outbox.entries[opId].op;
    assert op.deviceId == dev && op.opId in w.drawn;
    hide ClientGood;
    FlushKeeps(w.outbox, opId, low, Last(w.server.journal, dev), dev, w.drawn, w.sent, w.settled);
    ServerSideGrows(w, w.drawn, w.sent + {op}, low, dev);
  }

  /** An operation enqueued into an empty outbox and sent at once. */
  lemma ForceClient(o: Outbox, draft: FileOp, low: int, last: int, dev: string, drawn: set<OpId>, sent: set<FileOp>,
          settled: set<OpId>)
    requires ClientGood(o, low, last, dev, drawn, sent, settled) && SentCopies(sent, dev, drawn, last)
    requires draft.opId !in drawn && NonePending(o)
    ensures low == o.next && ForcedInflight(MarkedInflight(Enqueued(o, draft, dev), draft.opId), Some(draft.opId))
    ensures ClientGood(MarkedInflight(Enqueued(o, draft, dev), draft.opId), low, last, dev, drawn + {draft.opId},
                       sent + {Stamped(draft, dev, o.next)}, settled)
  {
    assert low < o.next ==> HoldsNumber(o.entries, low);
    EnqueueKeeps(o, draft, low, last, dev, drawn, sent, settled);
    hide ClientGood, SentCopies;
    var queued := Enqueued(o, draft, dev);
    RestatusKeeps(queued, MarkedInflight(queued, draft.opId).entries[draft.opId], draft.opId, low, last, dev,
                  drawn + {draft.opId}, sent, sent + {Stamped(draft, dev, o.next)}, settled);
  }

  lemma ForceStep(w: World, draft: FileOp, low: int, dev: string)
    requires Good(w, low, dev) && Possible(w, Force(draft), dev) && InTurn(w, Force(draft))
    ensures Good(Next(w, Force(draft), dev), low, dev)
  {
    hide ClientGood, GoodReplies, Last, LogShape.LogShape, Recorded, SentCopies, ForcedInflight;
    ForceClient(w.outbox, draft, low, Last(w.server.journal, dev), dev, w.drawn, w.sent, w.settled);
    ServerSideGrows(w, w.drawn + {draft.opId}, w.sent + {Stamped(draft, dev, w.outbox.next)}, low, dev);
    hide ServerGood, MarkedInflight, Enqueued;
  }

  lemma DiscardStep(w: World, lowest: OpId, low: int, dev: string)
    requires Good(w, low, dev) && Possible(w, Discard(lowest), dev)
    ensures Good(Next(w, Discard(lowest), dev), low, dev)
  {
    DiscardKeeps(w.outbox, lowest, low, Last(w.server.journal, dev), dev, w.drawn, w.sent, w.settled);
    hide ClientGood, ServerGood, GoodReplies, Last;
  }

  lemma LoseKeeps(w: World, i: nat, low: int, dev: string)
    requires Good(w, low, dev) && Possible(w, Lose(i), dev)
    ensures Good(Next(w, Lose(i), dev), low, dev)
  {
    hide ClientGood, ServerGood, ForcedInflight, Last;
  }

  lemma StepKeeps(w: World, a: Action, low: int, dev: string) returns (low': int)
    requires Good(w, low, dev) && RealDevice(dev) && Possible(w, a, dev) && InTurn(w, a)
    ensures Good(Next(w, a, dev), low', dev)
  {
    hide Good, Possible, Next, InTurn;
    low' := low;
    match a
    case Enqueue(draft) => EnqueueStep(w, draft, low, dev);
    case Flush(opId) => FlushStep(w, opId, low, dev);
    case Force(draft) => ForceStep(w, draft, low, dev);
    case GiveUp => IdleKeeps(w, a, low, dev);
    case Discard(lowest) => DiscardStep(w, lowest, low, dev);
    case Restart => IdleKeeps(w, a, low, dev);
    case Deliver(_, _, _, _) => DeliverKeeps(w, a, low, dev);
    case Receive => low' := ReceiveKeeps(w, low, dev);
    case Lose(i) => LoseKeeps(w, i, low, dev);
    case Others(e) => OthersKeep(w, e, low, dev);
  }

  lemma IdleKeeps(w: World, a: Action, low: int, dev: string)
    requires Good(w, low, dev) && (a.GiveUp? || a.Restart?) && Possible(w, a, dev)
    ensures Good(Next(w, a, dev), low, dev)
  {
    hide ClientGood, ServerGood, Last;
  }

  lemma ReceiveKeeps(w: World, low: int, dev: string) returns (low': int)
    requires Good(w, low, dev) && Possible(w, Receive, dev) && InTurn(w, Receive)
    ensures Good(Next(w, Receive, dev), low', dev)
  {
    hide ClientGood, ServerGood, GoodReplies, ForcedInflight, Last, HoldsLast;
    low' := low;
    assert Next(w, Receive, dev) == Received(w, w.replies[0], w.replies[1..]);
    if w.replies[0].Ack? {
      low' := AckKeeps(w, low, dev);
    } else if w.replies[0].Reject? {
      RejectKeeps(w, low, dev);
    } else {
      TailGood(w.replies, w.server.journal.opsById, w.sent, w.settled);
    }
  }

  // ---- runs ----

  /** A fresh client of a server that holds nothing of this device. */
  ghost predicate Start(w: World, dev: string) {
    && RealDevice(dev) && Reachable(w.server) && Last(w.server.journal, dev) == 0
    && (forall id :: id in w.server.journal.opsById ==> w.server.journal.opsById[id].deviceId != dev)
    && w == World(w.server, Outbox(map[], 1), None, {}, {}, [], {})
  }

  /** The worlds of a run, one more than its actions. */
  ghost predicate Path(ws: seq<World>, actions: seq<Action>, dev: string) {
    && |ws| == |actions| + 1 && Start(ws[0], dev)
    && forall i :: 0 <= i < |actions| ==> Possible(ws[i], actions[i], dev) && ws[i + 1] == Next(ws[i], actions[i], dev)
  }

  /** A run in which forced operations are in turn. */
  ghost predicate Trace(ws: seq<World>, actions: seq<Action>, dev: string) {
    Path(ws, actions, dev) && forall i :: 0 <= i < |actions| ==> InTurn(ws[i], actions[i])
  }

  lemma FreshClient(last: int, dev: string)
    requires last == 0
    ensures ClientGood(Outbox(map[], 1), 1, last, dev, {}, {}, {})
  {
  }

  lemma FreshServer(j: Journal, dev: string)
    requires LogShape.LogShape(j) && forall id :: id in j.opsById ==> j.opsById[id].deviceId != dev
    ensures ServerGood(j, dev, {}, {}, {})
  {
    hide LogShape.LogShape, Last;
  }

  lemma StartIsGood(w: World, dev: string)
    requires Start(w, dev)
    ensures Good(w, 1, dev)
  {
    hide LogShape.LogShape, Reachable, ClientGood, ServerGood, Last, RealDevice;
    ReachableShape(w.server);
    FreshClient(Last(w.server.journal, dev), dev);
    FreshServer(w.server.journal, dev);
  }

  lemma {:induction false} TraceIsGood(ws: seq<World>, actions: seq<Action>, dev: string, i: nat) returns (low: int)
    requires Trace(ws, actions, dev) && i < |ws|
    ensures Good(ws[i], low, dev)
  {
    hide Good, Possible, Next, Start, InTurn;
    if i == 0 {
      StartIsGood(ws[0], dev);
      low := 1;
    } else {
      low := TraceIsGood(ws, actions, dev, i - 1);
      IsReal(ws[0], dev);
      low := StepKeeps(ws[i - 1], actions[i - 1], low, dev);
    }
  }

  lemma IsReal(w: World, dev: string)
    requires Start(w, dev)
    ensures RealDevice(dev)
  {
  }

  /** In every run the queued and in-flight entries hold consecutive numbers that end just below the
      next one, and the lowest is at most one ahead of what the server has accepted; no entry holds a
      number at or above the next one, so a reload keeps it. */
  lemma StreamStaysConsecutive(ws: seq<World>, actions: seq<Action>, dev: string, i: nat) returns (low: int)
    requires Trace(ws, actions, dev) && i < |ws|
    ensures Stream(ws[i].outbox, low) && low <= Last(ws[i].server.journal, dev) + 1
    ensures AtLeastAll(ws[i].outbox.entries, ws[i].outbox.next) && ws[i].outbox.next >= 1
  {
    low := TraceIsGood(ws, actions, dev, i);
    hide Trace, Last, GoodReplies, ServerGood, ForcedInflight;
  }

  /** In every run no copy the client ever sent, delivered at any moment, is refused as a gap. */
  lemma NeverSeqGap(ws: seq<World>, actions: seq<Action>, dev: string, i: nat, op: FileOp, mayWrite: bool, now: nat,
          freshId: string)
    requires Trace(ws, actions, dev) && i < |ws| && op in ws[i].sent
    ensures var r := Process(ws[i].server, op, mayWrite, now, freshId).1; r.Reject? ==> r.code != SEQ_GAP
  {
    var low := TraceIsGood(ws, actions, dev, i);
    IsReal(ws[0], dev);
    hide Trace, Process, ClientGood, ForcedInflight, GoodReplies;
    ProcessView(ws[i].server, op, mayWrite, now, freshId, dev, ws[i].drawn, ws[i].sent, ws[i].settled);
  }

  lemma {:induction false} DroppedHere(w: World, low: int, dev: string, opId: OpId)
    requires Good(w, low, dev) && |w.replies| > 0 && w.replies[0].Ack? && opId in w.outbox.entries
    requires Waiting(w.outbox.entries[opId])
    requires var o := Received(w, w.replies[0], w.replies[1..]).outbox; opId in o.entries ==> !Waiting(o.entries[opId])
    ensures var opsById := w.server.journal.opsById;
      opId in opsById && opsById[opId].payload == w.outbox.entries[opId].op && opsById[opId].result == w.replies[0]
  {
    hide ClientGood, ServerGood, ForcedInflight, Last;
    assert GoodReply(w.replies[0], w.server.journal.opsById, w.sent, w.settled);
    hide GoodReplies;
    AcceptedIsOwn(w.server.journal, w.outbox, opId, low, dev, w.drawn, w.sent, w.settled);
  }

  /** In every run an operation that reading an acknowledgement takes out of the pending ones is in
      the server's log, recorded exactly as the client held it. */
  lemma DroppedWasAccepted(ws: seq<World>, actions: seq<Action>, dev: string, i: nat, opId: OpId)
    requires Trace(ws, actions, dev) && i < |actions| && actions[i].Receive? && ws[i].replies != []
    requires ws[i].replies[0].Ack?
    requires opId in ws[i].outbox.entries && Waiting(ws[i].outbox.entries[opId])
    requires opId in ws[i + 1].outbox.entries ==> !Waiting(ws[i + 1].outbox.entries[opId])
    ensures var opsById := ws[i].server.journal.opsById;
      opId in opsById && opsById[opId].payload == ws[i].outbox.entries[opId].op
          && opsById[opId].result == ws[i].replies[0]
  {
    hide Good, Received;
    var low := TraceIsGood(ws, actions, dev, i);
    assert ws[i + 1] == Next(ws[i], Receive, dev);
    hide Trace;
    DroppedHere(ws[i], low, dev, opId);
  }

  // ---- the server alone ----

  lemma ExtendsTwice(a: map<OpId, StoredOp>, b: map<OpId, StoredOp>, c: map<OpId, StoredOp>)
    requires Extends(a, b) && Extends(b, c)
    ensures Extends(a, c)
  {
  }

  ghost predicate AckIsRecorded(r: OpResult, opsById: map<OpId, StoredOp>) {
    r.Ack? ==> r.opId in opsById && opsById[r.opId].result == r
  }

  /** The log has its shape, and acknowledgements on their way are recorded results. */
  ghost predicate AcksRecorded(w: World) {
    LogShape.LogShape(w.server.journal) && forall r :: r in w.replies ==> AckIsRecorded(r, w.server.journal.opsById)
  }

  lemma EarlyAckIsRecorded(j: Journal, op: FileOp, mayWrite: bool)
    requires LogShape.LogShape(j) && Admission(j, op, mayWrite).Some?
    ensures AckIsRecorded(Admission(j, op, mayWrite).value, j.opsById)
  {
    if (op.deviceId, op.deviceSeq) in j.opsByDeviceSeq {
      var e := j.opsByDeviceSeq[(op.deviceId, op.deviceSeq)];
      assert InLog(j.log, e);
      assert EntryShape(j.log[e.vaultSeq - 1], e.vaultSeq - 1);
      assert j.opsById[e.opId] == e;
    }
    hide LogShape.LogShape;
  }

  lemma CommittedIsRecorded(j: Journal, op: FileOp, e: Effect)
    requires op.opId !in j.opsById
    ensures AckIsRecorded(AckOf(j, op, e), Record(j, op, e).opsById) && Extends(j.opsById, Record(j, op, e).opsById)
  {
    hide InsertBySeq;
  }

  /** Whatever is sent, the answer is no acknowledgement or a recorded one, and records stay. */
  lemma {:induction false} AnswerIsRecorded(s: State, op: FileOp, mayWrite: bool, now: nat, freshId: string)
    requires LogShape.LogShape(s.journal)
    ensures var (s', r) := Process(s, op, mayWrite, now, freshId);
      && AckIsRecorded(r, s'.journal.opsById) && Extends(s.journal.opsById, s'.journal.opsById)
  {
    ProcessCases(s, op, mayWrite, now, freshId);
    ExtendsItself(s.journal.opsById);
    hide Process, Prepare, StoredContent, Record, AckOf, Extends, Admission;
    if op.opId in s.journal.opsById {
      RecordedReply(s.journal, op.opId);
    } else if Admission(s.journal, op, mayWrite).Some? {
      EarlyAckIsRecorded(s.journal, op, mayWrite);
    } else if Prepare(s, op, now, freshId).Success? {
      CommittedIsRecorded(s.journal, op, Prepare(s, op, now, freshId).value);
    }
    hide LogShape.LogShape;
  }

  lemma {:induction false} StepRecords(w: World, a: Action, dev: string)
    requires AcksRecorded(w) && Possible(w, a, dev)
    ensures AcksRecorded(Next(w, a, dev)) && Extends(w.server.journal.opsById, Next(w, a, dev).server.journal.opsById)
  {
    hide LogShape.LogShape;
    if a.Deliver? {
      StepKeepsShape(w.server, Submit(a.op, a.mayWrite, a.now, a.freshId));
      AnswerIsRecorded(w.server, a.op, a.mayWrite, a.now, a.freshId);
      hide Process;
    } else if a.Others? {
      StepKeepsShape(w.server, a.event);
      OthersExtend(w.server, a.event);
      hide Step;
    }
  }

  lemma OthersExtend(s: State, e: Event)
    requires LogShape.LogShape(s.journal)
    ensures Extends(s.journal.opsById, Step(s, e).journal.opsById)
  {
    hide LogShape.LogShape;
    if e.Submit? {
      AnswerIsRecorded(s, e.op, e.mayWrite, e.now, e.freshId);
      hide Process;
    } else if !e.Register? && !e.Revoke? {
      OthersKeepJournal(s, e);
      hide OtherStep;
    }
  }

  lemma StartRecords(w: World, dev: string)
    requires Start(w, dev)
    ensures AcksRecorded(w)
  {
    hide LogShape.LogShape, Reachable;
    ReachableShape(w.server);
  }

  lemma {:induction false} PathRecords(ws: seq<World>, actions: seq<Action>, dev: string, i: nat, k: nat)
    requires Path(ws, actions, dev) && i <= k < |ws|
    ensures AcksRecorded(ws[k]) && Extends(ws[i].server.journal.opsById, ws[k].server.journal.opsById)
  {
    hide Possible, Next, AcksRecorded, Start, Extends;
    if k == 0 {
      StartRecords(ws[0], dev);
      ExtendsItself(ws[0].server.journal.opsById);
    } else {
      var before := if i == k then k - 1 else i;
      PathRecords(ws, actions, dev, before, k - 1);
      StepRecords(ws[k - 1], actions[k - 1], dev);
      ExtendsTwice(ws[before].server.journal.opsById, ws[k - 1].server.journal.opsById, ws[k].server.journal.opsById);
      ExtendsItself(ws[k].server.journal.opsById);
    }
  }

  lemma ExtendsItself(opsById: map<OpId, StoredOp>)
    ensures Extends(opsById, opsById)
  {
  }

  lemma PlaceInLog(j: Journal, r: OpResult)
    requires LogShape.LogShape(j) && r.Ack? && AckIsRecorded(r, j.opsById)
    ensures 1 <= r.vaultSeq <= |j.log| && j.log[r.vaultSeq - 1].opId == r.opId
  {
    var e := j.opsById[r.opId];
    assert InLog(j.log, e);
    assert EntryShape(j.log[e.vaultSeq - 1], e.vaultSeq - 1);
  }

  /** In every run whatsoever no operation id gets two vault sequence numbers: any two acknowledgements
      of it, however far apart, are the same, and its number is its place in the log. */
  lemma OneNumberPerOperation(ws: seq<World>, actions: seq<Action>, dev: string, i: nat, k: nat, r: OpResult,
          r': OpResult)
    requires Path(ws, actions, dev) && i <= k < |ws| && r in ws[i].replies && r' in ws[k].replies
    requires r.Ack? && r'.Ack? && r.opId == r'.opId
    ensures r == r'
    ensures var log := ws[k].server.journal.log; 1 <= r.vaultSeq <= |log| && log[r.vaultSeq - 1].opId == r.opId
  {
    hide Start, Possible, Next, LogShape.LogShape;
    PathRecords(ws, actions, dev, i, i);
    PathRecords(ws, actions, dev, i, k);
    hide Path;
    PlaceInLog(ws[k].server.journal, r');
  }

  // ---- a forced operation must stay the last one ----

  ghost predicate InStep(o: Outbox, last: int) {
    exists low: int :: Stream(o, low) && low <= last + 1
  }

  /** When a forced operation is refused, the stream stays in step with the server exactly if it still
      holds the highest number, the guard of the rollback, or the server has accepted it meanwhile. */
  lemma ForcedRejectInStep(o: Outbox, opId: OpId, low: int, last: int, dev: string, drawn: set<OpId>, sent: set<FileOp>,
          settled: set<OpId>)
    requires ClientGood(o, low, last, dev, drawn, sent, settled) && opId in o.entries
    requires o.entries[opId].status.Inflight?
    ensures InStep(OnForcedReject(o, opId), last) <==> HoldsLast(o, opId) || o.entries[opId].op.deviceSeq <= last
  {
    var o' := OnForcedReject(o, opId);
    assert o.entries[opId].op.deviceSeq == low;
    if HoldsLast(o, opId) {
      assert Stream(o', low);
    } else {
      StreamWithout(o, opId, low);
      if low == last + 1 {
        assert !HoldsNumber(o'.entries, low) by {
          forall id | id in o'.entries && Waiting(o'.entries[id]) ensures o'.entries[id].op.deviceSeq != low {
            assert id != opId && o'.entries[id] == o.entries[id];
          }
        }
        assert low < o'.next;
      }
    }
  }

  lemma StreamWithout(o: Outbox, opId: OpId, low: int)
    requires Stream(o, low) && opId in o.entries && Waiting(o.entries[opId]) && o.entries[opId].op.deviceSeq == low
    ensures Stream(WithStatus(o, opId, Rejected), low + 1)
  {
    var o' := WithStatus(o, opId, Rejected);
    forall n | low + 1 <= n < o'.next ensures HoldsNumber(o'.entries, n) {
      assert HoldsNumber(o.entries, n);
      var id :| id in o.entries && Waiting(o.entries[id]) && o.entries[id].op.deviceSeq == n;
      assert id in o'.entries && o'.entries[id] == o.entries[id];
    }
  }

  /** A forced operation sent while others are pending is ahead of the server exactly if one of them has
      not been accepted yet; with none pending it never is. */
  lemma ForcedAheadOfServer(o: Outbox, low: int, last: int, dev: string, drawn: set<OpId>, sent: set<FileOp>,
          settled: set<OpId>)
    requires ClientGood(o, low, last, dev, drawn, sent, settled)
    ensures o.next > last + 1 <==>
      exists id :: id in o.entries && Waiting(o.entries[id]) && o.entries[id].op.deviceSeq > last
    ensures NonePending(o) ==> o.next <= last + 1
  {
    if o.next > last + 1 {
      assert HoldsNumber(o.entries, o.next - 1);
    }
  }

  const FORCED := FileOp(Uuid("x"), "d", 1, "f", Delete, Note, None, None, None, None, false, None, None, None, None)
  const BEHIND := FORCED.(opId := Uuid("y"))

  /** Without that condition the claim fails: the forced deletion of an unknown file is refused while
      another operation is queued behind it, and the server answers that one with a gap. */
  lemma EnqueueBehindForcedLeavesGap()
    ensures var s := Step(Initial, Register("d"));
      var sent := MarkedInflight(Enqueued(Outbox(map[], 1), FORCED, "d"), Uuid("x"));
      var o := OnForcedReject(Enqueued(sent, BEHIND, "d"), Uuid("x"));
      && Process(s, sent.entries[Uuid("x")].op, true, 0, "c") == (s, Reject(Uuid("x"), NOT_FOUND, None))
      && IsNext(o.entries, Uuid("y"))
      && Process(s, o.entries[Uuid("y")].op, true, 0, "c").1 == Reject(Uuid("y"), SEQ_GAP, Some(1))
  {
    assert |CollabDevice("f")| == 8 && |"d"| == 1;
  }

  /** The other way round: an operation in flight is refused, and the forced one sent behind it is
      answered with a gap. */
  lemma ForceBehindPendingLeavesGap()
    ensures var s := Step(Initial, Register("d"));
      var first := Enqueued(Outbox(map[], 1), BEHIND, "d");
      var o := MarkedInflight(Enqueued(MarkedInflight(first, Uuid("y")), FORCED, "d"), Uuid("x"));
      && IsNext(first.entries, Uuid("y"))
      && Process(s, o.entries[Uuid("y")].op, true, 0, "c") == (s, Reject(Uuid("y"), NOT_FOUND, None))
      && Process(s, o.entries[Uuid("x")].op, true, 0, "c").1 == Reject(Uuid("x"), SEQ_GAP, Some(1))
  {
    assert |CollabDevice("f")| == 8 && |"d"| == 1;
    assert "x"[0] != "y"[0];
  }
}
