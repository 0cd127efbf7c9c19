/** The room manager (packages/server/src/engine/room-manager.ts) and its in-memory store
    (packages/server/src/engine/yjs.ts) for the room of one file: they change the stored room, the
    running room and Layer 1 in place, and do exactly what the state machine of rooms says. */
module RoomManagers {
  import opened Options
  import opened VersionVectors
  import opened Paths
  import opened Vault
  import opened VaultStore
  import opened Rooms

  lemma InsertOneDown(list: seq<StoredUpdate>, u: StoredUpdate, place: nat)
    requires place < |list| && list[place].n > u.n
    ensures InsertUpdate(list[..place + 1], u) + list[place + 1..] == InsertUpdate(list[..place], u) + list[place..]
  {
    assert list[..place + 1][..place] == list[..place];
    assert InsertUpdate(list[..place + 1], u) == InsertUpdate(list[..place], u) + [list[place]];
    assert list[place..] == [list[place]] + list[place + 1..];
  }

  method PushSorted(list: seq<StoredUpdate>, u: StoredUpdate) returns (sorted: seq<StoredUpdate>)
    ensures sorted == InsertUpdate(list, u)
  {
    var place := |list|;
    assert list[..place] == list && InsertUpdate(list, u) + [] == InsertUpdate(list, u);
    while place > 0 && list[place - 1].n > u.n
      invariant 0 <= place <= |list|
      invariant InsertUpdate(list[..place], u) + list[place..] == InsertUpdate(list, u)
    {
      place := place - 1;
      InsertOneDown(list, u, place);
    }
    assert InsertUpdate(list[..place], u) == list[..place] + [u];
    return list[..place] + [u] + list[place..];
  }

  class InMemoryYjsRoomStore {
    var room: Option<PersistedRoom>
    var updates: map<nat, seq<StoredUpdate>>
    var history: seq<Version>

    ghost function Abs(): RoomStore
      reads this
    {
      RoomStore(room, updates, history)
    }

    constructor ()
      ensures Abs() == RoomStore(None, map[], [])
    {
      room, updates, history := None, map[], [];
    }

    method SaveRoom(r: PersistedRoom)
      modifies this`room
      ensures room == Some(r)
    {
      room := Some(r);
    }

    /** Appends and keeps the epoch's list sorted by number. */
    method Append(epoch: nat, u: StoredUpdate)
      modifies this`updates
      ensures Abs() == AppendUpdate(old(Abs()), epoch, u)
    {
      var list := if epoch in updates then updates[epoch] else [];
      var sorted := PushSorted(list, u);
      updates := updates[epoch := sorted];
    }

    /** The epoch's updates with greater numbers. */
    method ListUpdates(epoch: nat, afterSeq: int) returns (found: seq<StoredUpdate>)
      ensures found == UpdatesAfter(UpdatesOf(Abs(), epoch), afterSeq)
    {
      var list := if epoch in updates then updates[epoch] else [];
      found := [];
      for i := 0 to |list|
        invariant found == UpdatesAfter(list[..i], afterSeq)
      {
        assert list[..i + 1][..i] == list[..i];
        if list[i].n > afterSeq { found := found + [list[i]]; }
      }
      assert list[..|list|] == list;
    }

    method SaveSnapshotOf(epoch: nat, doc: Doc, n: int)
      modifies this`room, this`history
      ensures Abs() == SaveSnapshot(old(Abs()), epoch, doc, n)
    {
      if room.Some? && room.value.epoch == epoch {
        room := Some(room.value.(snapshot := Some(doc), compactedThroughSeq := n));
      }
      history := history + [Version(epoch, n, doc)];
    }

    method DeleteUpdatesThrough(epoch: nat, n: int)
      modifies this`updates
      ensures Abs() == DeleteThrough(old(Abs()), epoch, n)
    {
      var kept := ListUpdates(epoch, n);
      updates := updates[epoch := kept];
    }
  }

  class RoomManager {
    const config: Config
    const data: InMemoryDataStore
    const roomStore: InMemoryYjsRoomStore
    const processor: OpProcessor
    var running: Option<Runtime>
    var issued: seq<Issued>

    constructor (config: Config, processor: OpProcessor, roomStore: InMemoryYjsRoomStore)
      ensures this.config == config && this.processor == processor && this.roomStore == roomStore
      ensures data == processor.store
      ensures running == None && issued == []
    {
      this.config, this.processor, this.roomStore, this.data := config, processor, roomStore, processor.store;
      running, issued := None, [];
    }

    ghost predicate Valid()
      reads this, data
    {
      data == processor.store && data.Valid()
    }

    ghost function Abs(): Server
      reads this, data, roomStore
    {
      Server(data.Abs(), roomStore.Abs(), running, issued)
    }

    /** Reads the record, then replays the updates that the snapshot does not cover. */
    method Materialize()
      requires Valid()
      modifies this`running
      ensures Valid() && Abs() == Materialized(old(Abs()))
    {
      if running.Some? { return; }
      var persisted := roomStore.room.GetOr(EMPTY_ROOM);
      var doc: Doc := persisted.snapshot.GetOr({});
      var updates := [];
      if persisted.seeded { updates := roomStore.ListUpdates(persisted.epoch, persisted.compactedThroughSeq); }
      for i := 0 to |updates|
        invariant running == old(running)
        invariant doc == Merged(updates[..i], persisted.snapshot.GetOr({}))
      {
        assert updates[..i + 1][..i] == updates[..i];
        doc := doc + updates[i].update;
      }
      assert updates[..|updates|] == updates;
      running := Some(Runtime(persisted, doc, map[], if persisted.active then Active else Closed));
    }

    method SaveRunning(rt: Runtime)
      requires Valid()
      modifies this`running, roomStore`room, data`files
      ensures Valid() && Abs() == SaveRuntime(config, old(Abs()), rt)
    {
      running := Some(rt);
      roomStore.SaveRoom(rt.persisted);
      if config.fileId in data.files.at {
        var until := if rt.persisted.active then rt.persisted.leaseUntil else None;
        data.SaveFile(data.files.at[config.fileId].(activeUntil := until));
      }
    }

    method Capture(rt: Runtime, n: int) returns (r: Runtime)
      modifies roomStore`room, roomStore`history
      ensures r == Snapshotted(rt, n)
      ensures roomStore.Abs() == SaveSnapshot(old(roomStore.Abs()), rt.persisted.epoch, rt.doc, n)
    {
      roomStore.SaveSnapshotOf(rt.persisted.epoch, rt.doc, n);
      return rt.(persisted := rt.persisted.(snapshot := Some(rt.doc), compactedThroughSeq := n));
    }

    method ActivateRoom(file: StoredFile, deviceId: string, now: nat)
      requires Valid() && running.Some?
      modifies this`running, roomStore`room, roomStore`history, data`files
      ensures Valid() && running.Some?
      ensures Abs() == Activate(config, old(Abs()), old(running).value, file, deviceId, now)
    {
      var rt := running.value;
      var doc: Doc := {};
      if rt.persisted.snapshot.Some? {
        doc := rt.persisted.snapshot.value;
      } else if Present(file.contentHash) && file.contentHash.value in data.content {
        doc := config.yjs.seed(data.content[file.contentHash.value]);
      }
      var persisted := PersistedRoom(rt.persisted.epoch + 1, true, true, Some(deviceId), Some(now + config.leaseMs),
                                     file.contentVV, file.contentHash, 1, Some(doc), 0);
      SaveRunning(rt.(doc := doc, persisted := persisted));
      roomStore.SaveSnapshotOf(persisted.epoch, doc, 0);
    }

    method PromoteRoom(deviceId: string, mayEdit: bool, now: nat) returns (r: Outcome)
      requires Valid()
      modifies this, roomStore, data
      ensures Valid() && (Abs(), r) == Promote(config, old(Abs()), deviceId, mayEdit, now)
    {
      hide Activate, SaveRuntime, Loaded;
      if !mayEdit { return Denied(NoWriteRole); }
      Materialize();
      if config.fileId !in data.files.at || data.files.at[config.fileId].deleted { return Denied(NoLiveFile); }
      var file := data.files.at[config.fileId];
      if file.encrypted { return Denied(Encrypted); }
      if !running.value.persisted.active || running.value.phase == Closed {
        ActivateRoom(file, deviceId, now);
      }
      var rt := running.value;
      var owner := if PresentText(rt.persisted.leaseOwner) then rt.persisted.leaseOwner else Some(deviceId);
      var lease := rt.persisted.(leaseUntil := Some(now + config.leaseMs), leaseOwner := owner);
      SaveInEnter(rt, file, lease, deviceId, mayEdit, now);
      return RoomState(running.value.persisted.epoch, running.value.doc);
    }

    method SaveInEnter(rt: Runtime, file: StoredFile, lease: PersistedRoom, deviceId: string, mayEdit: bool, now: nat)
      requires Valid() && running == Some(rt)
      requires lease == Leased(config, rt.persisted, deviceId, now)
      modifies this`running, roomStore`room, data`files
      ensures Valid() && running.Some? && Abs() == Enter(config, old(Abs()), rt, file, deviceId, mayEdit, now)
    {
      SaveRunning(rt.(persisted := lease, phase := Active,
                      participants := rt.participants[deviceId := Participant(file.contentVV, mayEdit, now, 0)]));
    }

    method AcceptUpdate(rt: Runtime, deviceId: string, update: Doc, now: nat)
      requires Valid()
      modifies this, roomStore, data`files
      ensures Valid() && Abs() == Accept(config, old(Abs()), rt, deviceId, update, now)
    {
      hide AppendUpdate, SaveSnapshot, SetActive;
      var n := rt.persisted.nextSeq;
      roomStore.Append(rt.persisted.epoch, StoredUpdate(n, deviceId, update));
      var edited := rt.(doc := rt.doc + update,
                        persisted := rt.persisted.(nextSeq := n + 1,
                                                   leaseOwner := rt.persisted.leaseOwner.OrElse(Some(deviceId)),
                                                   leaseUntil := Some(now + config.leaseMs)));
      if config.snapshotEvery > 0 && n % config.snapshotEvery == 0 {
        edited := Capture(edited, n);
      }
      SaveRunning(edited);
      issued := issued + [Issued(rt.persisted.epoch, n, update)];
    }

    method ReceiveUpdate(mayWrite: bool, deviceId: string, epoch: nat, update: Doc, now: nat) returns (r: Outcome)
      requires Valid()
      modifies this, roomStore, data
      ensures Valid() && (Abs(), r) == HandleUpdate(config, old(Abs()), mayWrite, deviceId, epoch, update, now)
    {
      hide Accept, Loaded;
      if !mayWrite { return Denied(NoWriteRole); }
      Materialize();
      var rt := running.value;
      if IsStale(rt, epoch) { return Stale; }
      if deviceId !in rt.participants { return Denied(NotParticipant); }
      var p := rt.participants[deviceId];
      if !p.mayEdit { return Denied(ReadOnly); }
      if now - p.windowStarted >= config.windowMs { p := p.(windowStarted := now, updatesInWindow := 0); }
      p := p.(updatesInWindow := p.updatesInWindow + 1);
      var limited := rt.(participants := rt.participants[deviceId := p]);
      if p.updatesInWindow > config.maxUpdates {
        running := Some(limited);
        return Denied(RateLimited);
      }
      AcceptUpdate(limited, deviceId, update, now);
      return UpdateAcked(rt.persisted.epoch, rt.persisted.nextSeq);
    }

    method Beat(deviceId: string, epoch: nat, now: nat) returns (r: Outcome)
      requires Valid()
      modifies this`running, roomStore`room, data`files
      ensures Valid() && (Abs(), r) == Heartbeat(config, old(Abs()), deviceId, epoch, now)
    {
      hide SaveRuntime, Loaded;
      Materialize();
      var rt := running.value;
      if IsStale(rt, epoch) { return Stale; }
      if deviceId !in rt.participants { return Denied(NotParticipant); }
      SaveRunning(rt.(persisted := rt.persisted.(leaseUntil := Some(now + config.leaseMs))));
      return Completed;
    }

    method LeaveRoom(deviceId: string, epoch: nat) returns (r: Outcome)
      requires Valid()
      modifies this`running
      ensures Valid() && (Abs(), r) == Leave(old(Abs()), deviceId, epoch)
    {
      hide Loaded;
      Materialize();
      var rt := running.value;
      if IsStale(rt, epoch) { return Stale; }
      if deviceId !in rt.participants { return Denied(NotParticipant); }
      running := Some(Emptied(rt.(participants := rt.participants - {deviceId})));
      return Completed;
    }

    method DropDevice(deviceId: string)
      modifies this`running
      ensures Abs() == Disconnect(old(Abs()), deviceId)
    {
      if running.Some? && deviceId in running.value.participants {
        running := Some(Emptied(running.value.(participants := running.value.participants - {deviceId})));
      }
    }

    method CompactRoom(throughSeq: Option<int>) returns (n: int)
      requires Valid()
      modifies this`running, roomStore, data`files
      ensures Valid() && Abs() == Compact(config, old(Abs()), throughSeq)
      ensures running.Some? && n == running.value.persisted.compactedThroughSeq
    {
      hide SetActive, UpdatesAfter, Loaded;
      Materialize();
      var rt := running.value;
      n := throughSeq.GetOr(if rt.persisted.nextSeq == 0 then 0 else rt.persisted.nextSeq - 1);
      var captured := Capture(rt, n);
      roomStore.DeleteUpdatesThrough(rt.persisted.epoch, n);
      SaveRunning(captured);
    }

    /** The participants' versions joined onto the base, in some order. */
    static method JoinParticipants(base: VersionVector,
            participants: map<string, Participant>) returns (vv: VersionVector, ghost joined: seq<VersionVector>)
      ensures vv == JoinAll(base, joined)
      ensures forall d :: d in participants ==> participants[d].joinedVV in joined
      ensures forall v :: v in joined ==> exists d :: d in participants && participants[d].joinedVV == v
      ensures participants == map[] ==> joined == []
    {
      vv, joined := base, [];
      var todo := participants.Keys;
      while todo != {}
        invariant todo <= participants.Keys
        invariant vv == JoinAll(base, joined) && (participants == map[] ==> joined == [])
        invariant forall d :: d in participants && d !in todo ==> participants[d].joinedVV in joined
        invariant forall v :: v in joined ==> exists d :: d in participants && participants[d].joinedVV == v
      {
        var d :| d in todo;
        vv := JoinLoop(vv, participants[d].joinedVV);
        assert (joined + [participants[d].joinedVV])[..|joined|] == joined;
        joined := joined + [participants[d].joinedVV];
        todo := todo - {d};
      }
    }

    /** Flushes the text to Layer 1 and, if that is accepted, snapshots and closes the room. */
    method DemoteRunning(now: nat, freshId: string) returns (r: Outcome, ghost joined: seq<VersionVector>)
      requires Valid() && running.Some?
      modifies this`running, roomStore`room, roomStore`history, data
      ensures Valid() && JoinedVersions(old(running).value, joined)
      ensures old(running).value.participants == map[] ==> joined == []
      ensures (Abs(), r) == DemoteLocked(config, old(Abs()), old(running).value, joined, now, freshId)
    {
      hide Vault.Process, SetActive, ByteLength, JoinAll;
      var rt := running.value;
      var vv;
      vv, joined := JoinParticipants(rt.persisted.baseVV, rt.participants);
      if !rt.persisted.active { return RoomClosed(rt.persisted.baseHash), joined; }
      var text := config.yjs.textOf(rt.doc);
      var hash := Digest(text);
      var device := CollabDevice(config.fileId);
      var op := FileOp(RoomFlush(config.fileId, rt.persisted.epoch), device, rt.persisted.epoch, config.fileId,
                       Update, Note,
                       Some(rt.persisted.baseVV), Some(Bump(vv, device)), Some(hash), Some(ByteLength(text)), false,
                           Some(text), None, None, None);
      assert op == FlushOp(config, rt, joined);
      var result := processor.Process(op, true, now, freshId);
      if !result.Ack? { return Denied(FlushFailed), joined; }
      var captured := Capture(rt, rt.persisted.nextSeq - 1);
      SaveRunning(captured.(persisted := captured.persisted.(active := false, leaseOwner := None, leaseUntil := None),
                            participants := map[], phase := Closed));
      return RoomClosed(Some(hash)), joined;
    }

    method DemoteRoom(expected: Option<nat>, now: nat,
            freshId: string) returns (r: Outcome, ghost joined: seq<VersionVector>)
      requires Valid()
      modifies this`running, roomStore`room, roomStore`history, data
      ensures Valid() && JoinedVersions(RoomOf(old(Abs())), joined)
      ensures (Abs(), r) == Demote(config, old(Abs()), expected, joined, now, freshId)
    {
      hide DemoteLocked, Loaded;
      Materialize();
      if expected.Some? && running.value.persisted.epoch != expected.value {
        var unused;
        unused, joined := JoinParticipants(map[], running.value.participants);
        return Stale, joined;
      }
      r, joined := DemoteRunning(now, freshId);
    }

    /** The closing timer, and the sweep of expired leases. */
    method CloseIfIdle(expiredOnly: bool, now: nat, freshId: string)
      requires Valid()
      modifies this`running, roomStore`room, roomStore`history, data
      ensures Valid() && Abs() == CloseIdle(config, old(Abs()), expiredOnly, now, freshId)
    {
      hide DemoteLocked;
      if running.None? { return; }
      var rt := running.value;
      if !rt.persisted.active || rt.participants != map[] { return; }
      if expiredOnly && !(rt.persisted.leaseUntil.Some? && rt.persisted.leaseUntil.value <= now) { return; }
      var _, joined := DemoteRunning(now, freshId);
    }

    method CloseForDeletion()
      requires Valid()
      modifies this`running, roomStore`room, data`files
      ensures Valid() && Abs() == CloseDeleted(config, old(Abs()))
    {
      hide SaveRuntime, Loaded;
      Materialize();
      var rt := running.value;
      if rt.persisted.active {
        SaveRunning(rt.(persisted := rt.persisted.(active := false, leaseOwner := None, leaseUntil := None),
                        participants := map[], phase := Closed));
      }
    }

    method RestoreHistoryVersion(mayWrite: bool, deviceId: string, version: nat, requestId: OpId, deviceSeq: nat,
            now: nat, freshId: string) returns (r: Outcome)
      requires Valid()
      modifies this, roomStore, data
      ensures Valid()
      ensures (Abs(), r) == RestoreHistory(config, old(Abs()), mayWrite, deviceId, version, requestId, deviceSeq,
                                           now, freshId)
    {
      hide Vault.Process, RestoreIntoRoom, Loaded, ByteLength;
      if !mayWrite { return Denied(NoWriteRole); }
      if config.fileId !in data.files.at || data.files.at[config.fileId].deleted { return Denied(NoLiveFile); }
      if version >= |roomStore.history| { return Denied(NoVersion); }
      var file := data.files.at[config.fileId];
      var text := config.yjs.textOf(roomStore.history[version].snapshot);
      var result := processor.Process(RestoreOp(config, file, text, requestId, deviceSeq), true, now, freshId);
      if !result.Ack? { return Denied(FlushFailed); }
      Materialize();
      PutOldText(deviceId, text);
      return Completed;
    }

    method PutOldText(deviceId: string, text: string)
      requires Valid() && running.Some?
      modifies this, roomStore, data`files
      ensures Valid() && Abs() == RestoreIntoRoom(config, old(Abs()), old(running).value, deviceId, text)
    {
      hide InsertUpdate, SetActive;
      var rt := running.value;
      var update, n := config.yjs.replacing(rt.doc, text), rt.persisted.nextSeq;
      roomStore.Append(rt.persisted.epoch, StoredUpdate(n, deviceId, update));
      var edited := rt.(doc := rt.doc + update, persisted := rt.persisted.(nextSeq := n + 1));
      edited := Capture(edited, n);
      SaveRunning(edited);
      issued := issued + [Issued(rt.persisted.epoch, n, update)];
    }
  }
}
