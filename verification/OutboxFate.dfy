/** What becomes of a local edit: in every run it is still pending, recorded by the server, discarded by
    the user, or refused for good; and what reading one reply does to the outbox. */
module OutboxFate {
  import opened Options
  import opened Vault
  import opened VaultRuns
  import opened Outboxes
  import opened OutboxProtocol

  /** The operation as the client drew it, whatever number it holds by now. */
  ghost predicate Carries(op: FileOp, draft: FileOp, dev: string) {
    op == draft.(deviceId := dev, deviceSeq := op.deviceSeq)
  }

  /** The draft waits in the outbox, unchanged. */
  ghost predicate StillPending(w: World, draft: FileOp, dev: string) {
    && draft.opId in w.outbox.entries
    && var e := w.outbox.entries[draft.opId];
       (e.status == Queued || e.status == Inflight) && Carries(e.op, draft, dev)
  }

  /** The server has recorded the draft, unchanged. */
  ghost predicate InServer(w: World, draft: FileOp, dev: string) {
    var opsById := w.server.journal.opsById;
    draft.opId in opsById && Carries(opsById[draft.opId].payload, draft, dev)
  }

  /** The user throws the queued operation away. */
  ghost predicate ThrownAway(w: World, a: Action, id: OpId) {
    a.Discard? && id in w.outbox.entries && w.outbox.entries[id].status == Queued
  }

  /** The client reads a rejection that is not to be retried. */
  ghost predicate RefusedForGood(w: World, a: Action, id: OpId) {
    && a.Receive? && |w.replies| > 0 && w.replies[0].Reject? && w.replies[0].opId == id
    && w.replies[0].code != SEQ_GAP && w.replies[0].code != STALE && w.replies[0].code != FILE_ACTIVE
  }

  /** The draft was not sent by force, and is accounted for. */
  ghost predicate Accounted(w: World, draft: FileOp, dev: string) {
    && draft.opId in w.drawn && w.forced != Some(draft.opId)
    && (StillPending(w, draft, dev) || InServer(w, draft, dev))
  }

  // ---- one step ----

  lemma {:induction false} AcknowledgedIsInServer(w: World, low: int, dev: string, draft: FileOp)
    requires Good(w, low, dev) && |w.replies| > 0 && StillPending(w, draft, dev)
    requires w.replies[0].Ack? && w.replies[0].opId == draft.opId
    ensures InServer(Received(w, w.replies[0], w.replies[1..]), draft, dev)
  {
    hide Good;
    var o := OnAck(w.outbox, draft.opId, w.replies[0].conflictId);
    assert Received(w, w.replies[0], w.replies[1..]).outbox == o;
    assert draft.opId in o.entries ==> o.entries[draft.opId].status == Conflicted;
    assert Received(w, w.replies[0], w.replies[1..]).server == w.server;
    hide OnAck, Received;
    DroppedHere(w, low, dev, draft.opId);
  }

  lemma OtherReadingKeeps(w: World, dev: string, draft: FileOp)
    requires |w.replies| > 0 && w.forced != Some(draft.opId) && StillPending(w, draft, dev)
    requires !RefusedForGood(w, Receive, draft.opId)
    requires !(w.replies[0].Ack? && w.replies[0].opId == draft.opId)
    ensures StillPending(Received(w, w.replies[0], w.replies[1..]), draft, dev)
  {
    ReplyDecides(w);
    hide Received;
  }

  lemma {:induction false} ReadingKeeps(w: World, low: int, dev: string, draft: FileOp)
    requires Good(w, low, dev) && |w.replies| > 0 && w.forced != Some(draft.opId) && StillPending(w, draft, dev)
    requires !RefusedForGood(w, Receive, draft.opId)
    ensures var w' := Received(w, w.replies[0], w.replies[1..]);
      StillPending(w', draft, dev) || InServer(w', draft, dev)
  {
    hide Good, StillPending, InServer, RefusedForGood, Received;
    if w.replies[0].Ack? && w.replies[0].opId == draft.opId {
      AcknowledgedIsInServer(w, low, dev, draft);
    } else {
      OtherReadingKeeps(w, dev, draft);
    }
  }

  lemma {:induction false} StepAccounts(w: World, a: Action, low: int, dev: string, draft: FileOp)
    requires Good(w, low, dev) && Possible(w, a, dev) && draft.opId in w.drawn && w.forced != Some(draft.opId)
    requires StillPending(w, draft, dev) && !ThrownAway(w, a, draft.opId) && !RefusedForGood(w, a, draft.opId)
    ensures Accounted(Next(w, a, dev), draft, dev)
  {
    hide Good, Received;
    if a.Receive? {
      ReadingKeeps(w, low, dev, draft);
    }
    hide Process, Step;
    StepDraws(w, a, dev, draft.opId);
  }

  /** What was drawn once is never drawn for a forced send. */
  lemma StepDraws(w: World, a: Action, dev: string, id: OpId)
    requires Possible(w, a, dev) && id in w.drawn && w.forced != Some(id)
    ensures id in Next(w, a, dev).drawn && Next(w, a, dev).forced != Some(id)
  {
    hide Process, Step, Enqueued, MarkedInflight, Flushed, Discarded, OnAck, OnReject, OnForcedReject, Stamped;
  }

  /** A recorded operation stays recorded and is not sent by force later. */
  lemma {:induction false} StepKeepsRecorded(w: World, a: Action, dev: string, draft: FileOp)
    requires AcksRecorded(w) && Possible(w, a, dev) && draft.opId in w.drawn && w.forced != Some(draft.opId)
    requires InServer(w, draft, dev)
    ensures Accounted(Next(w, a, dev), draft, dev)
  {
    StepRecords(w, a, dev);
    StepDraws(w, a, dev, draft.opId);
    hide AcksRecorded, Next, Possible;
  }

  // ---- runs ----

  ghost predicate Dismissed(ws: seq<World>, actions: seq<Action>, i: nat, k: nat, id: OpId)
    requires i < k <= |actions| < |ws|
  {
    exists j :: i < j < k && (ThrownAway(ws[j], actions[j], id) || RefusedForGood(ws[j], actions[j], id))
  }

  /** In every run an operation the client enqueued is at every later moment still pending with its content
      unchanged, or recorded by the server with that content, unless meanwhile it was thrown away while
      queued, or a rejection of it was read whose code is none of SEQ_GAP, STALE and FILE_ACTIVE. */
  lemma {:induction false} NoEditIsLost(ws: seq<World>, actions: seq<Action>, dev: string, i: nat, k: nat)
    requires Trace(ws, actions, dev) && i < k <= |actions| && actions[i].Enqueue?
    ensures Dismissed(ws, actions, i, k, actions[i].draft.opId) || Accounted(ws[k], actions[i].draft, dev)
  {
    hide Accounted, Good, ThrownAway, RefusedForGood, Start, InTurn;
    var draft := actions[i].draft;
    if k == i + 1 {
      DraftIsPending(ws, actions, dev, i);
    } else {
      NoEditIsLost(ws, actions, dev, i, k - 1);
      var j := k - 1;
      if Dismissed(ws, actions, i, j, draft.opId) {
      } else if ThrownAway(ws[j], actions[j], draft.opId) || RefusedForGood(ws[j], actions[j], draft.opId) {
      } else {
        StepOfRun(ws, actions, dev, j, draft);
      }
    }
  }

  lemma DraftIsPending(ws: seq<World>, actions: seq<Action>, dev: string, i: nat)
    requires Trace(ws, actions, dev) && i < |actions| && actions[i].Enqueue?
    ensures Accounted(ws[i + 1], actions[i].draft, dev)
  {
    var low := TraceIsGood(ws, actions, dev, i);
    assert ws[i + 1] == Next(ws[i], actions[i], dev) && Possible(ws[i], actions[i], dev);
    hide Trace;
    ForcedIsDrawn(ws[i], low, dev);
    hide Good;
  }

  /** The forced operation in flight was drawn. */
  lemma ForcedIsDrawn(w: World, low: int, dev: string)
    requires Good(w, low, dev)
    ensures w.forced.Some? ==> w.forced.value in w.drawn
  {
    hide Stream, SentIsLowest, ServerGood, GoodReplies;
  }

  lemma StepOfRun(ws: seq<World>, actions: seq<Action>, dev: string, j: nat, draft: FileOp)
    requires Trace(ws, actions, dev) && j < |actions| && Accounted(ws[j], draft, dev)
    requires !ThrownAway(ws[j], actions[j], draft.opId) && !RefusedForGood(ws[j], actions[j], draft.opId)
    ensures Accounted(ws[j + 1], draft, dev)
  {
    var low := TraceIsGood(ws, actions, dev, j);
    PathRecords(ws, actions, dev, j, j);
    assert ws[j + 1] == Next(ws[j], actions[j], dev) && Possible(ws[j], actions[j], dev);
    hide Trace, Good, AcksRecorded, Next, Possible, ThrownAway, RefusedForGood, StillPending, InServer;
    if StillPending(ws[j], draft, dev) {
      StepAccounts(ws[j], actions[j], low, dev, draft);
    } else {
      StepKeepsRecorded(ws[j], actions[j], dev, draft);
    }
  }

  // ---- reading one reply ----

  /** The other entries stay as they are, those above the number one lower when `down`. */
  ghost predicate OthersAs(entries: Entries, entries': Entries, id: OpId, down: bool)
    requires id in entries
  {
    && entries'.Keys == entries.Keys - {id}
    && forall x :: x in entries && x != id ==>
         if down && entries[x].op.deviceSeq > entries[id].op.deviceSeq
         then entries'[x] == entries[x].(op := entries[x].op.(deviceSeq := entries[x].op.deviceSeq - 1))
         else entries'[x] == entries[x]
  }

  /** Reading a reply takes exactly that reply off and touches no entry but the one it names. A rejection with
      SEQ_GAP, STALE or FILE_ACTIVE queues the operation again; any other takes it out and closes the
      gap in the numbers, so that the next operation is not blocked. A forced operation is taken back while it
      holds the highest number and marked otherwise. An acknowledgement takes the operation out, one with a
      conflict keeps it for the user. */
  lemma ReplyDecides(w: World)
    requires |w.replies| > 0
    ensures var w', r, o := Received(w, w.replies[0], w.replies[1..]), w.replies[0], w.outbox;
      && w'.replies == w.replies[1..] && w'.server == w.server && w'.sent == w.sent && w'.drawn == w.drawn
      && (r.Thrown? || r.opId !in o.entries ==> w'.outbox == o)
      && (r.Reject? && r.opId in o.entries && w.forced != Some(r.opId) ==>
            if r.code == SEQ_GAP || r.code == STALE || r.code == FILE_ACTIVE
            then w'.outbox == Outbox(o.entries[r.opId := o.entries[r.opId].(status := Queued)], o.next)
            else OthersAs(o.entries, w'.outbox.entries, r.opId, true) && w'.outbox.next == o.next - 1)
      && (r.Reject? && r.opId in o.entries && w.forced == Some(r.opId) ==>
            if o.entries[r.opId].op.deviceSeq == o.next - 1
            then OthersAs(o.entries, w'.outbox.entries, r.opId, false) && w'.outbox.next == o.next - 1
            else w'.outbox == Outbox(o.entries[r.opId := o.entries[r.opId].(status := Rejected)], o.next))
      && (r.Ack? && r.opId in o.entries ==>
            if r.conflictId.None?
            then OthersAs(o.entries, w'.outbox.entries, r.opId, false) && w'.outbox.next == o.next
            else w'.outbox == Outbox(o.entries[r.opId := o.entries[r.opId].(status := Conflicted)], o.next))
      && w'.settled == (if r.Ack? then w.settled + {r.opId} else w.settled)
      && w'.forced == (if !r.Thrown? && w.forced == Some(r.opId) then None else w.forced)
  {
  }

  /** Discarding takes out exactly the queued entries and frees their numbers; it may be done exactly if nothing
      is in flight and nothing settled lies above the lowest queued entry. */
  lemma DiscardDecides(o: Outbox, lowest: OpId)
    requires IsLowest(o.entries, Queued, lowest)
    ensures MayDiscard(o.entries, lowest) <==>
      forall id :: id in o.entries ==>
        && o.entries[id].status != Inflight
        && (o.entries[id].op.deviceSeq > o.entries[lowest].op.deviceSeq ==> o.entries[id].status == Queued)
    ensures var o' := Discarded(o, lowest);
      && o'.next == o.entries[lowest].op.deviceSeq
      && (forall id :: id in o'.entries <==> id in o.entries && o.entries[id].status != Queued)
      && (forall id :: id in o'.entries ==> o'.entries[id] == o.entries[id])
      && (forall id :: id in o.entries && o.entries[id].status == Queued ==>
            o.entries[id].op.deviceSeq >= o'.next)
  {
  }

  /** A forced send draws the next number and is in flight at once; nothing else changes. */
  lemma ForceDecides(w: World, draft: FileOp, dev: string)
    requires Possible(w, Force(draft), dev)
    ensures var w', op := Next(w, Force(draft), dev), draft.(deviceId := dev, deviceSeq := w.outbox.next);
      && w' == w.(outbox := w'.outbox, drawn := w.drawn + {draft.opId}, sent := w.sent + {op},
                  forced := Some(draft.opId))
      && w'.outbox.next == w.outbox.next + 1 && draft.opId in w'.outbox.entries
      && w'.outbox.entries == w.outbox.entries[draft.opId := w'.outbox.entries[draft.opId]]
      && w'.outbox.entries[draft.opId] == OutboxEntry(op, Inflight, 1)
  {
  }
}
