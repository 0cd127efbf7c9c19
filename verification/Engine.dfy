/** The part of the client's sync engine that moves operations (apps/plugin/src/sync/engine.ts),
    changing its state in place, proved against the reactions of the outbox protocol and the replica. */
module Engine {
  import opened Basics
  import opened Options
  import opened Vault
  import opened Outboxes
  import opened OutboxProtocol
  import R = Replica

  datatype Message = FileOpMessage(op: FileOp) | GetOps(sinceSeq: nat) | PromoteMessage(fileId: string)

  /** Flushing sends the next operation, if the connection allows it and one waits. */
  ghost predicate FlushedTo(canSend: bool, o: Outbox, wire: seq<Message>, o': Outbox, wire': seq<Message>) {
    if canSend && (HasStatus(o.entries, Inflight) || HasStatus(o.entries, Queued))
    then exists opId ::
           IsNext(o.entries, opId) && o' == Flushed(o, opId) && wire' == wire + [FileOpMessage(o.entries[opId].op)]
    else o' == o && wire' == wire
  }

  /** An entry is kept under its own operation's id. */
  ghost predicate OwnIds(entries: Entries) {
    forall id :: id in entries ==> entries[id].op.opId == id
  }

  /** A flush that may send and finds something waiting puts exactly one message on the wire: the operation in
      flight with the lowest number, or else the lowest queued one, which is then in flight. Otherwise
      it does nothing. */
  lemma FlushSendsLowest(canSend: bool, o: Outbox, wire: seq<Message>, o': Outbox, wire': seq<Message>)
    requires FlushedTo(canSend, o, wire, o', wire') && OwnIds(o.entries)
    ensures !canSend || (forall id :: id in o.entries ==> !Waiting(o.entries[id])) ==> o' == o && wire' == wire
    ensures canSend && (exists id :: id in o.entries && Waiting(o.entries[id])) ==>
      && |wire'| == |wire| + 1 && wire' == wire + [wire'[|wire|]] && wire'[|wire|].FileOpMessage?
      && var id := wire'[|wire|].op.opId;
         && id in o.entries && o.entries[id].op == wire'[|wire|].op && id in o'.entries
         && o' == Outbox(o.entries[id := o'.entries[id]], o.next) && o'.entries[id].op == o.entries[id].op
         && o'.entries[id].status == Inflight
         && o'.entries[id].attempts == o.entries[id].attempts + (if o.entries[id].status == Queued then 1 else 0)
         && (o.entries[id].status == Inflight || o.entries[id].status == Queued)
         && (forall x :: x in o.entries && o.entries[x].status == Inflight ==>
               o.entries[id].status == Inflight && o.entries[id].op.deviceSeq <= o.entries[x].op.deviceSeq)
         && (forall x :: x in o.entries && o.entries[x].status == Queued && o.entries[id].status == Queued ==>
               o.entries[id].op.deviceSeq <= o.entries[x].op.deviceSeq)
  {
  }

  class SyncEngine {
    const outbox: OutboxManager
    var encrypts: bool
    var transportReady: bool
    var paused: bool
    var handshakeComplete: bool
    var awaitingCatchup: bool
    var forceWaiters: set<OpId>
    var appliedSeq: nat
    var applied: seq<AppliedOp>
    var wire: seq<Message>

    constructor (outbox: OutboxManager, appliedSeq: nat, encrypts: bool)
      ensures this.outbox == outbox && this.appliedSeq == appliedSeq && applied == [] && wire == []
      ensures this.encrypts == encrypts
      ensures forceWaiters == {}
      ensures !transportReady && !paused && !handshakeComplete && !awaitingCatchup
    {
      this.outbox := outbox;
      this.appliedSeq := appliedSeq;
      this.encrypts := encrypts;
      transportReady, paused, handshakeComplete, awaitingCatchup := false, false, false, false;
      forceWaiters, applied, wire := {}, [], [];
    }

    predicate IsWriteReady()
      reads this
    {
      transportReady && handshakeComplete
    }

    ghost function Replica(): R.Replica
      reads this
    {
      R.Replica(appliedSeq, applied)
    }

    method FlushOutbox()
      modifies this`wire, outbox
      ensures FlushedTo(transportReady && handshakeComplete && !paused, old(outbox.State()), old(wire),
                        outbox.State(), wire)
    {
      if !transportReady || paused || !handshakeComplete { return; }
      var inflight := outbox.First(Inflight);
      if inflight.Some? {
        wire := wire + [FileOpMessage(outbox.entries[inflight.value].op)];
        return;
      }
      var next := outbox.First(Queued);
      if next.None? { return; }
      var entry := outbox.MarkInflight(next.value);
      wire := wire + [FileOpMessage(entry.value.op)];
    }

    method EnqueueLocalChange(draft: FileOp) returns (op: FileOp)
      modifies this`wire, outbox
      ensures op == Stamped(draft, outbox.deviceId, old(outbox.nextDeviceSeq))
      ensures FlushedTo(transportReady && handshakeComplete && !paused,
                        Enqueued(old(outbox.State()), draft, outbox.deviceId), old(wire), outbox.State(), wire)
    {
      op := outbox.Enqueue(draft);
      FlushOutbox();
    }

    method SetAppliedSeq(n: nat)
      modifies this`appliedSeq
      ensures appliedSeq == Max(old(appliedSeq), n)
    {
      if n > appliedSeq { appliedSeq := n; }
    }

    /** An acknowledgement settles the operation and wakes the forced send that waits for it. */
    method HandleAck(opId: OpId, vaultSeq: nat, conflictId: Option<string>) returns (woken: bool)
      modifies this`wire, this`appliedSeq, this`forceWaiters, outbox
      ensures FlushedTo(transportReady && handshakeComplete && !paused,
                        OnAck(old(outbox.State()), opId, conflictId), old(wire), outbox.State(), wire)
      ensures appliedSeq == Max(old(appliedSeq), vaultSeq)
      ensures woken == (opId in old(forceWaiters)) && forceWaiters == old(forceWaiters) - {opId}
    {
      if conflictId.Some? { outbox.Conflict(opId); } else { outbox.Ack(opId); }
      SetAppliedSeq(vaultSeq);
      woken := opId in forceWaiters;
      forceWaiters := forceWaiters - {opId};
      FlushOutbox();
    }

    /** Asks to join the room of a file; refused locally while content is encrypted. */
    method Promote(fileId: string)
      modifies this`wire
      ensures wire == if encrypts then old(wire) else old(wire) + [PromoteMessage(fileId)]
    {
      if encrypts { return; }
      wire := wire + [PromoteMessage(fileId)];
    }

    /** A rejection wakes a forced send, which then takes its operation back; otherwise the operation
        is queued again or taken out of the stream. The client asks for the operations it missed, or to
        join the room that holds the file, unless content is encrypted. */
    method HandleReject(opId: OpId, code: ErrorCode) returns (woken: bool)
      modifies this`wire, this`forceWaiters, outbox
      ensures woken == (opId in old(forceWaiters)) && forceWaiters == old(forceWaiters) - {opId}
      ensures woken ==> outbox.State() == OnForcedReject(old(outbox.State()), opId) && wire == old(wire)
      ensures !woken ==>
        var asked := if code == SEQ_GAP || code == STALE then [GetOps(appliedSeq)]
                     else if code == FILE_ACTIVE && opId in old(outbox.entries) && !encrypts
                     then [PromoteMessage(old(outbox.entries)[opId].op.fileId)] else [];
        FlushedTo(transportReady && handshakeComplete && !paused, OnReject(old(outbox.State()), opId, code),
                  old(wire) + asked, outbox.State(), wire)
    {
      hide WithStatus, Removed, OnForcedReject, FlushedTo;
      woken := opId in forceWaiters;
      if woken {
        forceWaiters := forceWaiters - {opId};
        TakeBack(opId);
        return;
      }
      if code == SEQ_GAP || code == STALE {
        outbox.Reject(opId, false);
        wire := wire + [GetOps(appliedSeq)];
      } else if code == FILE_ACTIVE {
        if opId in outbox.entries { Promote(outbox.entries[opId].op.fileId); }
        outbox.Reject(opId, false);
      } else {
        var _ := outbox.RemoveAndReindex(opId);
      }
      assert wire == old(wire) + (if code == SEQ_GAP || code == STALE then [GetOps(appliedSeq)]
                                  else if code == FILE_ACTIVE && opId in old(outbox.entries) && !encrypts
                                  then [PromoteMessage(old(outbox.entries)[opId].op.fileId)] else []);
      FlushOutbox();
    }

    /** The end of a forced send that the server did not accept. */
    method TakeBack(opId: OpId)
      modifies outbox
      ensures outbox.State() == OnForcedReject(old(outbox.State()), opId)
    {
      var done := outbox.RollbackLast(opId);
      if !done { outbox.Reject(opId, true); }
    }

    /** The start of a forced send: without a connection the fresh operation is taken back at once. */
    method PushForced(draft: FileOp) returns (sent: bool)
      modifies this`wire, this`forceWaiters, outbox
      ensures sent == (transportReady && handshakeComplete)
      ensures !sent ==>
        wire == old(wire) && forceWaiters == old(forceWaiters)
        && outbox.State() == Acked(old(outbox.State()), draft.opId)
      ensures sent ==>
        && outbox.State() == MarkedInflight(Enqueued(old(outbox.State()), draft, outbox.deviceId), draft.opId)
        && wire == old(wire) + [FileOpMessage(Stamped(draft, outbox.deviceId, old(outbox.nextDeviceSeq)))]
        && forceWaiters == old(forceWaiters) + {draft.opId}
    {
      var op := outbox.Enqueue(draft);
      if !IsWriteReady() {
        ghost var queued := outbox.State();
        TakeBack(op.opId);
        assert HoldsLast(queued, op.opId);
        assert outbox.entries == old(outbox.entries) - {op.opId};
        return false;
      }
      forceWaiters := forceWaiters + {op.opId};
      var _ := outbox.MarkInflight(op.opId);
      wire := wire + [FileOpMessage(op)];
      return true;
    }

    /** Applies a batch up to its first hole and asks for the rest when there is one. */
    method ApplyOps(ops: seq<AppliedOp>) returns (complete: bool)
      modifies this`appliedSeq, this`applied, this`wire
      ensures (Replica(), complete) == R.ApplyBatch(old(Replica()), ops)
      ensures wire == if complete then old(wire) else old(wire) + [GetOps(appliedSeq)]
    {
      var sorted := R.SortBySeq(ops);
      for i := 0 to |sorted|
        invariant wire == old(wire)
        invariant R.ApplySorted(Replica(), sorted[i..]) == R.ApplyBatch(old(Replica()), ops)
      {
        var item := sorted[i];
        assert sorted[i..][0] == item && sorted[i..][1..] == sorted[i + 1..];
        if item.vaultSeq <= appliedSeq { continue; }
        if item.vaultSeq != appliedSeq + 1 {
          wire := wire + [GetOps(appliedSeq)];
          return false;
        }
        applied := applied + [item];
        SetAppliedSeq(item.vaultSeq);
      }
      return true;
    }

    method FinishHandshake()
      modifies this`awaitingCatchup, this`handshakeComplete, this`wire, outbox
      ensures handshakeComplete && !awaitingCatchup
      ensures FlushedTo(transportReady && !paused, old(outbox.State()), old(wire), outbox.State(), wire)
    {
      awaitingCatchup := false;
      handshakeComplete := true;
      FlushOutbox();
    }

    /** No operation is sent before the client has caught up with the server. */
    method HandleWelcome(currentSeq: nat)
      modifies this`awaitingCatchup, this`handshakeComplete, this`wire, outbox
      ensures currentSeq > appliedSeq ==>
        awaitingCatchup && handshakeComplete == old(handshakeComplete) && outbox.State() == old(outbox.State())
            && wire == old(wire) + [GetOps(appliedSeq)]
      ensures currentSeq <= appliedSeq ==>
        handshakeComplete && !awaitingCatchup
        && FlushedTo(transportReady && !paused, old(outbox.State()), old(wire), outbox.State(), wire)
    {
      if currentSeq > appliedSeq {
        awaitingCatchup := true;
        wire := wire + [GetOps(appliedSeq)];
      } else {
        FinishHandshake();
      }
    }

    method HandleOps(ops: seq<AppliedOp>, more: bool)
      modifies this`appliedSeq, this`applied, this`wire, this`awaitingCatchup, this`handshakeComplete, outbox
      ensures Replica() == R.ApplyBatch(old(Replica()), ops).0
      ensures !R.ApplyBatch(old(Replica()), ops).1 || more ==>
        outbox.State() == old(outbox.State()) && wire == old(wire) + [GetOps(appliedSeq)]
        && handshakeComplete == old(handshakeComplete)
      ensures R.ApplyBatch(old(Replica()), ops).1 && !more && old(awaitingCatchup) ==>
        handshakeComplete && !awaitingCatchup
        && FlushedTo(transportReady && !paused, old(outbox.State()), old(wire), outbox.State(), wire)
      ensures R.ApplyBatch(old(Replica()), ops).1 && !more && !old(awaitingCatchup) ==>
        outbox.State() == old(outbox.State()) && wire == old(wire) && handshakeComplete == old(handshakeComplete)
    {
      var complete := ApplyOps(ops);
      if !complete { return; }
      if more {
        wire := wire + [GetOps(appliedSeq)];
      } else if awaitingCatchup {
        FinishHandshake();
      }
    }
  }

  // ---- the handlers follow the protocol ----

  /** The world after at most one flush. */
  ghost predicate FlushedWorld(w: World, o: Outbox, wire: seq<Message>, wire': seq<Message>, dev: string) {
    || (o == w.outbox && wire' == wire)
    || exists opId ::
         && Possible(w, Flush(opId), dev) && o == Next(w, Flush(opId), dev).outbox
         && wire' == wire + [FileOpMessage(w.outbox.entries[opId].op)]
         && w.outbox.entries[opId].op in Next(w, Flush(opId), dev).sent
  }

  lemma {:induction false} FlushFollowsProtocol(w: World, dev: string, canSend: bool, o: Outbox, wire: seq<Message>,
          wire': seq<Message>)
    requires FlushedTo(canSend, w.outbox, wire, o, wire')
    ensures FlushedWorld(w, o, wire, wire', dev)
  {
    if canSend && (HasStatus(w.outbox.entries, Inflight) || HasStatus(w.outbox.entries, Queued)) {
      var opId :| IsNext(w.outbox.entries, opId) && o == Flushed(w.outbox, opId)
          && wire' == wire + [FileOpMessage(w.outbox.entries[opId].op)];
      assert Possible(w, Flush(opId), dev);
    }
  }

  /** What HandleAck and HandleReject do to outbox and wire, once a rejection's requests are sent, is
      the protocol's reading of the first reply, followed by at most one flush. */
  lemma {:induction false} HandlersFollowProtocol(w: World, dev: string, canSend: bool, o: Outbox, wire: seq<Message>,
          wire': seq<Message>)
    requires w.replies != [] && !w.replies[0].Thrown?
    requires var r := w.replies[0];
      if r.Ack? then FlushedTo(canSend, OnAck(w.outbox, r.opId, r.conflictId), wire, o, wire')
      else if w.forced == Some(r.opId) then o == OnForcedReject(w.outbox, r.opId) && wire' == wire
      else FlushedTo(canSend, OnReject(w.outbox, r.opId, r.code), wire, o, wire')
    ensures Possible(w, Receive, dev) && FlushedWorld(Next(w, Receive, dev), o, wire, wire', dev)
  {
    hide FlushedTo, FlushedWorld;
    assert Next(w, Receive, dev) == Received(w, w.replies[0], w.replies[1..]);
    if w.replies[0].Ack? || w.forced != Some(w.replies[0].opId) {
      FlushFollowsProtocol(Next(w, Receive, dev), dev, canSend, o, wire, wire');
    } else {
      StaysPut(Next(w, Receive, dev), wire, dev);
    }
  }

  lemma StaysPut(w: World, wire: seq<Message>, dev: string)
    ensures FlushedWorld(w, w.outbox, wire, wire, dev)
  {
  }
}
