/** What a room answers to each request and what it does, request by request: who is refused and why,
    and that nobody but its editors changes the document. */
module RoomAnswers {
  import opened Options
  import opened VersionVectors
  import opened Paths
  import opened Vault
  import opened VaultRuns
  import opened Rooms
  import opened RoomRuns
  import opened RoomDurability

  /** The record in memory is the stored one. */
  ghost predicate RecordInSync(s: Server) {
    s.room.Some? ==> s.room.value.persisted == RoomRecord(s.store)
  }

  /** The room runs in the epoch the client speaks of. */
  ghost predicate RunsIn(rt: Runtime, epoch: nat) {
    rt.persisted.active && rt.persisted.epoch == epoch && rt.phase != Closed
  }

  /** Joining: refused without write role, live file or plain content; otherwise a running room is entered
      as it is, another one is opened in the next epoch; the lease is renewed for leaseMs. */
  lemma JoinDecides(c: Config, s: Server, d: string, mayEdit: bool, now: nat)
    ensures var (s', r) := Promote(c, s, d, mayEdit, now);
      var live := c.fileId in s.layer1.files.at && !s.layer1.files.at[c.fileId].deleted;
      var rt := RoomOf(s);
      && (!mayEdit ==> s' == s && r == Denied(NoWriteRole))
      && (mayEdit && !live ==> s' == Materialized(s) && r == Denied(NoLiveFile))
      && (mayEdit && live && s.layer1.files.at[c.fileId].encrypted ==> s' == Materialized(s) && r == Denied(Encrypted))
      && (mayEdit && live && !s.layer1.files.at[c.fileId].encrypted ==>
            var file := s.layer1.files.at[c.fileId];
            && s'.room.Some? && s'.issued == s.issued
            && var rt' := s'.room.value;
               && r == RoomState(rt'.persisted.epoch, rt'.doc) && rt'.phase == Active && rt'.persisted.active
               && rt'.persisted.leaseUntil == Some(now + c.leaseMs) && rt'.persisted.leaseOwner.Some?
               && rt'.participants == rt.participants[d := Participant(file.contentVV, true, now, 0)]
               && s'.store.room == Some(rt'.persisted)
               && c.fileId in s'.layer1.files.at
               && s'.layer1.files.at[c.fileId].activeUntil == Some(now + c.leaseMs)
               && (rt.persisted.active && rt.phase != Closed ==>
                     && rt'.doc == rt.doc
                     && rt'.persisted == rt.persisted.(leaseUntil := Some(now + c.leaseMs),
                          leaseOwner := if rt.persisted.leaseOwner.Some? && rt.persisted.leaseOwner != Some("")
                                        then rt.persisted.leaseOwner else Some(d)))
               && (!rt.persisted.active || rt.phase == Closed ==>
                     && rt'.persisted.epoch == rt.persisted.epoch + 1 && rt'.persisted.nextSeq == 1
                     && rt'.persisted.baseVV == file.contentVV && rt'.persisted.baseHash == file.contentHash
                     && rt'.persisted.compactedThroughSeq == 0 && rt'.persisted.seeded))
  {
    hide LoadedDoc, SeedDoc;
  }

  /** The participant's count once this update is counted, in a new window if the old one is over. */
  ghost function CountWith(c: Config, p: Participant, now: nat): nat {
    if now - p.windowStarted >= c.windowMs then 1 else p.updatesInWindow + 1
  }

  /** An update is accepted exactly from an editing participant of the running epoch within its limit; it is
      then stored and acknowledged under the next number and merged, and the lease is renewed. */
  lemma EditDecides(c: Config, s: Server, mayWrite: bool, d: string, epoch: nat, update: Doc, now: nat)
    requires RecordInSync(s)
    ensures var (s', r) := HandleUpdate(c, s, mayWrite, d, epoch, update, now);
      var rt := RoomOf(s);
      && (!mayWrite ==> s' == s && r == Denied(NoWriteRole))
      && (mayWrite && !RunsIn(rt, epoch) ==> s' == Materialized(s) && r == Stale)
      && (mayWrite && RunsIn(rt, epoch) && d !in rt.participants ==>
            s' == Materialized(s) && r == Denied(NotParticipant))
      && (mayWrite && RunsIn(rt, epoch) && d in rt.participants ==>
            && (!rt.participants[d].mayEdit ==> s' == Materialized(s) && r == Denied(ReadOnly))
            && (rt.participants[d].mayEdit && CountWith(c, rt.participants[d], now) > c.maxUpdates ==>
                  && r == Denied(RateLimited) && s' == s.(room := s'.room) && s'.room.Some?
                  && s'.room.value.doc == rt.doc && s'.room.value.persisted == rt.persisted)
            && (rt.participants[d].mayEdit && CountWith(c, rt.participants[d], now) <= c.maxUpdates ==>
                  && r == UpdateAcked(epoch, rt.persisted.nextSeq)
                  && s'.issued == s.issued + [Issued(epoch, rt.persisted.nextSeq, update)] && s'.room.Some?
                  && var rt' := s'.room.value;
                     && rt'.doc == rt.doc + update && rt'.persisted.nextSeq == rt.persisted.nextSeq + 1
                     && rt'.persisted.epoch == epoch && rt'.persisted.active && rt'.phase == rt.phase
                     && rt'.persisted.leaseUntil == Some(now + c.leaseMs) && rt'.persisted.baseVV == rt.persisted.baseVV
                     && rt'.persisted.leaseOwner ==
                          (if rt.persisted.leaseOwner.Some? then rt.persisted.leaseOwner else Some(d))
                     && rt'.participants.Keys == rt.participants.Keys
                     && rt'.participants[d].updatesInWindow == CountWith(c, rt.participants[d], now)
                     && UpdatesOf(s'.store, epoch) ==
                          InsertUpdate(UpdatesOf(s.store, epoch), StoredUpdate(rt.persisted.nextSeq, d, update))
                     && (c.snapshotEvery > 0 && rt.persisted.nextSeq % c.snapshotEvery == 0 ==>
                           && rt'.persisted.snapshot == Some(rt'.doc)
                           && rt'.persisted.compactedThroughSeq == rt.persisted.nextSeq)
                     && (c.snapshotEvery == 0 || rt.persisted.nextSeq % c.snapshotEvery != 0 ==>
                           rt'.persisted.snapshot == rt.persisted.snapshot
                           && rt'.persisted.compactedThroughSeq == rt.persisted.compactedThroughSeq)))
  {
    hide LoadedDoc, InsertUpdate;
  }

  /** Compacting replaces everything stored up to the number, by default the last one handed out, with a
      snapshot of the document. */
  lemma CompactDecides(c: Config, s: Server, throughSeq: Option<int>)
    ensures var s', rt := Compact(c, s, throughSeq), RoomOf(s);
      var n := if throughSeq.Some? then throughSeq.value else if rt.persisted.nextSeq == 0 then 0
               else rt.persisted.nextSeq - 1;
      && s'.room.Some? && s'.issued == s.issued && s'.room.value.doc == rt.doc
      && s'.room.value.persisted == rt.persisted.(snapshot := Some(rt.doc), compactedThroughSeq := n)
      && s'.store.room == Some(s'.room.value.persisted)
      && s'.store.history == s.store.history + [Version(rt.persisted.epoch, n, rt.doc)]
      && forall u :: u in UpdatesOf(s'.store, rt.persisted.epoch) <==>
           u in UpdatesOf(s.store, rt.persisted.epoch) && u.n > n
  {
    var rt := RoomOf(s);
    var n := if throughSeq.Some? then throughSeq.value else if rt.persisted.nextSeq == 0 then 0
             else rt.persisted.nextSeq - 1;
    AfterItems(UpdatesOf(s.store, rt.persisted.epoch), n);
    hide LoadedDoc, UpdatesAfter;
  }

  lemma BeatDecides(c: Config, s: Server, d: string, epoch: nat, now: nat)
    ensures var (s', r) := Heartbeat(c, s, d, epoch, now);
      var rt := RoomOf(s);
      && (!RunsIn(rt, epoch) ==> s' == Materialized(s) && r == Stale)
      && (RunsIn(rt, epoch) && d !in rt.participants ==> s' == Materialized(s) && r == Denied(NotParticipant))
      && (RunsIn(rt, epoch) && d in rt.participants ==>
            && r == Completed && s'.room == Some(rt.(persisted := rt.persisted.(leaseUntil := Some(now + c.leaseMs))))
            && s'.store == s.store.(room := Some(s'.room.value.persisted)) && s'.issued == s.issued
            && (c.fileId in s.layer1.files.at ==>
                  c.fileId in s'.layer1.files.at && s'.layer1.files.at[c.fileId].activeUntil == Some(now + c.leaseMs)))
  {
    hide LoadedDoc;
  }

  /** Leaving takes exactly the device out; the last one to leave a running room starts its closing. */
  lemma LeaveDecides(s: Server, d: string, epoch: nat)
    ensures var (s', r) := Leave(s, d, epoch);
      var rt := RoomOf(s);
      && (!RunsIn(rt, epoch) ==> s' == Materialized(s) && r == Stale)
      && (RunsIn(rt, epoch) && d !in rt.participants ==> s' == Materialized(s) && r == Denied(NotParticipant))
      && (RunsIn(rt, epoch) && d in rt.participants ==>
            && r == Completed && s' == s.(room := s'.room) && s'.room.Some?
            && s'.room.value == rt.(participants := rt.participants - {d},
                 phase := if rt.participants.Keys == {d} then Closing else rt.phase))
    ensures var s' := Disconnect(s, d);
      if s.room.Some? && d in s.room.value.participants
      then s' == s.(room := s'.room) && s'.room.Some? && s'.room.value.participants == s.room.value.participants - {d}
           && s'.room.value.doc == s.room.value.doc && s'.room.value.persisted == s.room.value.persisted
           && s'.room.value.phase == (if s.room.value.participants.Keys == {d} && s.room.value.persisted.active
                                      then Closing else s.room.value.phase)
      else s' == s
  {
    hide LoadedDoc;
    var rt := RoomOf(s);
    assert rt.participants.Keys == {d} && d in rt.participants ==> rt.participants - {d} == map[];
    if d in rt.participants && rt.participants - {d} == map[] {
      assert forall x :: x in rt.participants && x != d ==> x in rt.participants - {d};
      assert rt.participants.Keys == {d};
    }
  }

  /** Demoting: refused for another epoch, nothing to do for a resting room; a flush that is not
      acknowledged leaves the room as it was, an acknowledged one closes it behind a snapshot of everything. */
  lemma DemoteDecides(c: Config, s: Server, expected: Option<nat>, joined: seq<VersionVector>, now: nat,
          freshId: string)
    ensures var (s', r) := Demote(c, s, expected, joined, now, freshId);
      var rt := RoomOf(s);
      var (layer1, answer) := Process(s.layer1, FlushOp(c, rt, joined), true, now, freshId);
      && (expected.Some? && expected.value != rt.persisted.epoch ==> s' == Materialized(s) && r == Stale)
      && ((expected.None? || expected.value == rt.persisted.epoch) && !rt.persisted.active ==>
            s' == Materialized(s) && r == RoomClosed(rt.persisted.baseHash))
      && ((expected.None? || expected.value == rt.persisted.epoch) && rt.persisted.active ==>
            && (!answer.Ack? ==> r == Denied(FlushFailed) && s' == Materialized(s).(layer1 := layer1))
            && (answer.Ack? ==>
                  && r == RoomClosed(Some(Digest(c.yjs.textOf(rt.doc)))) && s'.issued == s.issued && s'.room.Some?
                  && var rt' := s'.room.value;
                     && rt'.doc == rt.doc && rt'.phase == Closed && rt'.participants == map[]
                     && rt'.persisted == rt.persisted.(active := false, leaseOwner := None, leaseUntil := None,
                          snapshot := Some(rt.doc), compactedThroughSeq := rt.persisted.nextSeq - 1)
                     && s'.store.room == Some(rt'.persisted)
                     && (c.fileId in layer1.files.at ==>
                           && c.fileId in s'.layer1.files.at && s'.layer1.files.at[c.fileId].activeUntil.None?
                           && s'.layer1.files.at[c.fileId].contentHash == layer1.files.at[c.fileId].contentHash)))
  {
    hide LoadedDoc, Process, JoinAll, ByteLength;
  }

  /** The closing timer and the sweep leave a room alone that is resting or has participants, and the sweep
      one whose lease has not lapsed; any other room they demote. */
  lemma IdleDecides(c: Config, s: Server, expiredOnly: bool, now: nat, freshId: string)
    ensures s.room.None? || !s.room.value.persisted.active ==> CloseIdle(c, s, expiredOnly, now, freshId) == s
    ensures s.room.Some? && s.room.value.participants != map[] ==> CloseIdle(c, s, expiredOnly, now, freshId) == s
    ensures s.room.Some? && expiredOnly ==>
      var lease := s.room.value.persisted.leaseUntil;
      (lease.None? || lease.value > now ==> CloseIdle(c, s, expiredOnly, now, freshId) == s)
    ensures s.room.Some? && s.room.value.persisted.active && s.room.value.participants == map[] ==>
      var lease := s.room.value.persisted.leaseUntil;
      (!expiredOnly || (lease.Some? && lease.value <= now) ==>
         CloseIdle(c, s, expiredOnly, now, freshId) == Demote(c, s, None, [], now, freshId).0)
  {
    hide DemoteLocked;
  }

  lemma DeletedCloses(c: Config, s: Server)
    ensures var s', rt := CloseDeleted(c, s), RoomOf(s);
      && s'.room.Some? && !s'.room.value.persisted.active && s'.issued == s.issued && s'.room.value.doc == rt.doc
      && (rt.persisted.active ==>
            && s'.room.value.participants == map[] && s'.room.value.phase == Closed
            && s'.room.value.persisted == rt.persisted.(active := false, leaseOwner := None, leaseUntil := None)
            && (c.fileId in s.layer1.files.at ==>
                  c.fileId in s'.layer1.files.at && s'.layer1.files.at[c.fileId].activeUntil.None?))
  {
    hide LoadedDoc;
  }

  // ---- who changes the document ----

  /** An update by an editing participant of the running epoch, with the write role. */
  ghost predicate EditsProperly(s: Server, e: RoomEvent) {
    && e.Edit? && e.mayWrite && RunsIn(RoomOf(s), e.epoch)
    && e.deviceId in RoomOf(s).participants && RoomOf(s).participants[e.deviceId].mayEdit
  }

  /** In memory or read back, the document only changes by an editing participant's update, which is merged
      into it, by restoring an old version with the write role, or by opening a new epoch. */
  lemma {:induction false} OnlyWritersChangeTheDocument(c: Config, s: Server, e: RoomEvent)
    requires Durable(s) && RoomOf(RoomStep(c, s, e)).doc != RoomOf(s).doc
    requires !e.CompactRoom? || e.throughSeq.None?
    ensures || (EditsProperly(s, e) && RoomOf(RoomStep(c, s, e)).doc == RoomOf(s).doc + e.update)
            || (e.RestoreVersion? && e.mayWrite)
            || Reopens(c, s, e)
  {
    if s.room.Some? { InMemory(s); }
    RestingMatches(s);
    hide Durable, LoadedDoc, Promote, HandleUpdate, Heartbeat, Leave, Disconnect, Compact, Demote, CloseIdle,
         CloseDeleted, RestoreHistory, Step, DemoteLocked;
    match e
    case PromoteRoom(d, mayEdit, now) => JoinDecides(c, s, d, mayEdit, now);
    case Edit(mayWrite, d, epoch, update, now) => EditDecides(c, s, mayWrite, d, epoch, update, now);
    case Beat(d, epoch, now) => BeatDecides(c, s, d, epoch, now);
    case LeaveRoom(d, epoch) => LeaveDecides(s, d, epoch);
    case DropDevice(d) => LeaveDecides(s, d, 0);
    case CompactRoom(throughSeq) => CompactKeepsDoc(c, s, throughSeq);
    case DemoteRoom(expected, joined, now, freshId) => DemoteDecides(c, s, expected, joined, now, freshId);
    case IdleRoom(expiredOnly, now, freshId) => IdleKeepsDoc(c, s, expiredOnly, now, freshId);
    case FileDeleted => DeletedCloses(c, s);
    case RestoreVersion(mayWrite, _, _, _, _, _, _) => UnwrittenRestore(c, s, e);
    case Reload =>
    case Layer1(_) =>
  }

  lemma RestingMatches(s: Server)
    requires Durable(s)
    ensures RoomOf(s).doc == LoadedDoc(s.store) && RoomOf(s).persisted == RoomRecord(s.store)
    ensures RoomOf(s).phase == Closed <==> !RoomOf(s).persisted.active
  {
    if s.room.Some? { InMemory(s); }
    hide Durable, LoadedDoc;
  }

  lemma CompactKeepsDoc(c: Config, s: Server, throughSeq: Option<int>)
    ensures Compact(c, s, throughSeq).room.Some? && Compact(c, s, throughSeq).room.value.doc == RoomOf(s).doc
  {
    hide LoadedDoc, UpdatesAfter;
  }

  lemma IdleKeepsDoc(c: Config, s: Server, expiredOnly: bool, now: nat, freshId: string)
    ensures RoomOf(CloseIdle(c, s, expiredOnly, now, freshId)).doc == RoomOf(s).doc
  {
    hide LoadedDoc, Process, JoinAll, ByteLength, UpdatesOf;
  }

  lemma UnwrittenRestore(c: Config, s: Server, e: RoomEvent)
    requires e.RestoreVersion?
    ensures !e.mayWrite ==> RoomStep(c, s, e) == s
  {
    hide Process, RestoreIntoRoom;
  }
}
