/** Layer 2: the collaborative room of one file (packages/server/src/engine/room-manager.ts) over its
    store (packages/server/src/engine/yjs.ts). A Yjs document is the set of the updates merged into
    it, applying an update is union. Each operation of a room is one step. */
module Rooms {
  import opened Options
  import opened VersionVectors
  import opened Paths
  import opened Vault

  type Doc = set<string>

  /** What Yjs supplies: the text of a document, the document a text is first typed into, and the
      update that replaces a document's text. */
  datatype Yjs = Yjs(textOf: Doc -> string, seed: string -> Doc, replacing: (Doc, string) -> Doc)

  datatype Config = Config(fileId: string, leaseMs: nat, maxUpdates: nat, windowMs: nat, snapshotEvery: nat, yjs: Yjs)

  // ---- stored and running rooms ----

  datatype PersistedRoom = PersistedRoom(
    epoch: nat, active: bool, seeded: bool, leaseOwner: Option<string>, leaseUntil: Option<nat>,
    baseVV: VersionVector, baseHash: Option<Hash>, nextSeq: nat, snapshot: Option<Doc>, compactedThroughSeq: int)

  datatype StoredUpdate = StoredUpdate(n: nat, deviceId: string, update: Doc)
  datatype Version = Version(epoch: nat, n: int, snapshot: Doc)

  /** The record of the room, the updates of each epoch, and the history of snapshots. */
  datatype RoomStore = RoomStore(room: Option<PersistedRoom>, updates: map<nat, seq<StoredUpdate>>,
          history: seq<Version>)

  datatype Participant = Participant(joinedVV: VersionVector, mayEdit: bool, windowStarted: nat, updatesInWindow: nat)
  datatype Phase = Active | Closing | Closed
  datatype Runtime = Runtime(persisted: PersistedRoom, doc: Doc, participants: map<string, Participant>, phase: Phase)

  /** A sequence number handed out in an epoch, and the update it stands for. */
  datatype Issued = Issued(epoch: nat, n: nat, update: Doc)

  datatype Server = Server(layer1: State, store: RoomStore, room: Option<Runtime>, issued: seq<Issued>)

  datatype RoomError =
    | NoWriteRole | NoLiveFile | Encrypted | NotParticipant | ReadOnly | RateLimited | FlushFailed | NoVersion
  datatype Outcome =
    | RoomState(epoch: nat, doc: Doc)
    | UpdateAcked(epoch: nat, n: nat)
    | RoomClosed(hash: Option<Hash>)
    | Stale
    | Completed
    | Denied(error: RoomError)

  const EMPTY_ROOM := PersistedRoom(0, false, false, None, None, map[], None, 1, None, 0)

  // ---- the room store ----

  function UpdatesOf(store: RoomStore, epoch: nat): seq<StoredUpdate> {
    if epoch in store.updates then store.updates[epoch] else []
  }

  /** Keeps the list sorted by number. */
  function InsertUpdate(list: seq<StoredUpdate>, u: StoredUpdate): seq<StoredUpdate> {
    if list == [] || list[|list| - 1].n <= u.n then list + [u]
    else InsertUpdate(list[..|list| - 1], u) + [list[|list| - 1]]
  }

  function AppendUpdate(store: RoomStore, epoch: nat, u: StoredUpdate): RoomStore {
    store.(updates := store.updates[epoch := InsertUpdate(UpdatesOf(store, epoch), u)])
  }

  function UpdatesAfter(list: seq<StoredUpdate>, n: int): seq<StoredUpdate> {
    if list == [] then []
    else UpdatesAfter(list[..|list| - 1], n) + (if list[|list| - 1].n > n then [list[|list| - 1]] else [])
  }

  function DeleteThrough(store: RoomStore, epoch: nat, n: int): RoomStore {
    store.(updates := store.updates[epoch := UpdatesAfter(UpdatesOf(store, epoch), n)])
  }

  /** A snapshot of the room's current epoch also goes into the room's record. */
  function SaveSnapshot(store: RoomStore, epoch: nat, doc: Doc, n: int): RoomStore {
    store.(room := if store.room.Some? && store.room.value.epoch == epoch
                   then Some(store.room.value.(snapshot := Some(doc), compactedThroughSeq := n)) else store.room,
           history := store.history + [Version(epoch, n, doc)])
  }

  function RoomRecord(store: RoomStore): PersistedRoom {
    store.room.GetOr(EMPTY_ROOM)
  }

  function Merged(list: seq<StoredUpdate>, doc: Doc): Doc {
    if list == [] then doc else Merged(list[..|list| - 1], doc) + list[|list| - 1].update
  }

  /** The document as it is read back: the snapshot, then the updates it does not cover. */
  function DocOf(r: PersistedRoom, list: seq<StoredUpdate>): Doc {
    Merged(if r.seeded then UpdatesAfter(list, r.compactedThroughSeq) else [], r.snapshot.GetOr({}))
  }

  function LoadedDoc(store: RoomStore): Doc {
    DocOf(RoomRecord(store), UpdatesOf(store, RoomRecord(store).epoch))
  }

  function Loaded(store: RoomStore): Runtime {
    Runtime(RoomRecord(store), LoadedDoc(store), map[], if RoomRecord(store).active then Active else Closed)
  }

  // ---- shared steps ----

  /** The room in memory, read from the store if it is not there. */
  function Materialized(s: Server): Server {
    if s.room.Some? then s else s.(room := Some(Loaded(s.store)))
  }

  function RoomOf(s: Server): Runtime {
    if s.room.Some? then s.room.value else Loaded(s.store)
  }

  /** Saves the record and writes its lease onto the file. */
  function SaveRuntime(c: Config, s: Server, rt: Runtime): Server {
    s.(store := s.store.(room := Some(rt.persisted)), room := Some(rt),
       layer1 := SetActive(s.layer1, c.fileId, if rt.persisted.active then rt.persisted.leaseUntil else None))
  }

  function Snapshotted(rt: Runtime, n: int): Runtime {
    rt.(persisted := rt.persisted.(snapshot := Some(rt.doc), compactedThroughSeq := n))
  }

  // ---- joining ----

  function SeedDoc(c: Config, layer1: State, file: StoredFile): Doc {
    if Present(file.contentHash) && file.contentHash.value in layer1.content then
      c.yjs.seed(layer1.content[file.contentHash.value])
    else {}
  }

  /** A new epoch starts from the last snapshot, or from the Layer 1 content if there is none. */
  function ActivatedRoom(c: Config, s: Server, rt: Runtime, file: StoredFile, deviceId: string, now: nat): Runtime {
    var doc := if rt.persisted.snapshot.Some? then rt.persisted.snapshot.value else SeedDoc(c, s.layer1, file);
    rt.(doc := doc,
        persisted := PersistedRoom(rt.persisted.epoch + 1, true, true, Some(deviceId), Some(now + c.leaseMs),
                                   file.contentVV, file.contentHash, 1, Some(doc), 0))
  }

  function Activate(c: Config, s: Server, rt: Runtime, file: StoredFile, deviceId: string, now: nat): Server {
    var rt' := ActivatedRoom(c, s, rt, file, deviceId, now);
    var saved := SaveRuntime(c, s, rt');
    saved.(store := SaveSnapshot(saved.store, rt'.persisted.epoch, rt'.doc, 0))
  }

  /** The lease is renewed; the first to come owns it. */
  function Leased(c: Config, r: PersistedRoom, deviceId: string, now: nat): PersistedRoom {
    r.(leaseUntil := Some(now + c.leaseMs),
       leaseOwner := if PresentText(r.leaseOwner) then r.leaseOwner else Some(deviceId))
  }

  function Enter(c: Config, s: Server, rt: Runtime, file: StoredFile, deviceId: string, mayEdit: bool,
          now: nat): Server {
    SaveRuntime(c, s, rt.(persisted := Leased(c, rt.persisted, deviceId, now), phase := Active,
                          participants := rt.participants[deviceId := Participant(file.contentVV, mayEdit, now, 0)]))
  }

  function Promote(c: Config, s: Server, deviceId: string, mayEdit: bool, now: nat): (Server, Outcome) {
    if !mayEdit then (s, Denied(NoWriteRole))
    else
      var m := Materialized(s);
      if c.fileId !in m.layer1.files.at || m.layer1.files.at[c.fileId].deleted then (m, Denied(NoLiveFile))
      else
        var file := m.layer1.files.at[c.fileId];
        if file.encrypted then (m, Denied(Encrypted))
        else
          var rt := m.room.value;
          var a := if !rt.persisted.active || rt.phase.Closed? then Activate(c, m, rt, file, deviceId, now) else m;
          var j := Enter(c, a, a.room.value, file, deviceId, mayEdit, now);
          (j, RoomState(j.room.value.persisted.epoch, j.room.value.doc))
  }

  // ---- editing ----

  predicate IsStale(rt: Runtime, epoch: nat) {
    (rt.persisted.active && rt.persisted.epoch != epoch) || !rt.persisted.active || rt.phase.Closed?
  }

  function Limited(c: Config, p: Participant, now: nat): Participant {
    var q := if now - p.windowStarted >= c.windowMs then p.(windowStarted := now, updatesInWindow := 0) else p;
    q.(updatesInWindow := q.updatesInWindow + 1)
  }

  predicate Cadence(c: Config, n: nat) {
    c.snapshotEvery > 0 && n % c.snapshotEvery == 0
  }

  /** The room with one more update merged and numbered, its lease renewed. */
  function Edited(c: Config, rt: Runtime, deviceId: string, update: Doc, now: nat): Runtime {
    rt.(doc := rt.doc + update,
        persisted := rt.persisted.(nextSeq := rt.persisted.nextSeq + 1,
                                   leaseOwner := rt.persisted.leaseOwner.OrElse(Some(deviceId)),
                                   leaseUntil := Some(now + c.leaseMs)))
  }

  /** An accepted update: stored, merged, numbered, from time to time snapshotted, acknowledged. */
  function Accept(c: Config, s: Server, rt: Runtime, deviceId: string, update: Doc, now: nat): Server {
    var n, epoch := rt.persisted.nextSeq, rt.persisted.epoch;
    var stored := s.(store := AppendUpdate(s.store, epoch, StoredUpdate(n, deviceId, update)),
                     issued := s.issued + [Issued(epoch, n, update)]);
    var edited := Edited(c, rt, deviceId, update, now);
    if Cadence(c, n) then SaveRuntime(c, stored.(store := SaveSnapshot(stored.store, epoch, edited.doc, n)),
                                      Snapshotted(edited, n))
    else SaveRuntime(c, stored, edited)
  }

  function HandleUpdate(c: Config, s: Server, mayWrite: bool, deviceId: string, epoch: nat, update: Doc,
          now: nat): (Server, Outcome) {
    if !mayWrite then (s, Denied(NoWriteRole))
    else
      var m := Materialized(s);
      var rt := m.room.value;
      if IsStale(rt, epoch) then (m, Stale)
      else if deviceId !in rt.participants then (m, Denied(NotParticipant))
      else if !rt.participants[deviceId].mayEdit then (m, Denied(ReadOnly))
      else
        var limited := rt.(participants := rt.participants[deviceId := Limited(c, rt.participants[deviceId], now)]);
        if limited.participants[deviceId].updatesInWindow > c.maxUpdates then
          (m.(room := Some(limited)), Denied(RateLimited))
        else (Accept(c, m, limited, deviceId, update, now), UpdateAcked(rt.persisted.epoch, rt.persisted.nextSeq))
  }

  function Heartbeat(c: Config, s: Server, deviceId: string, epoch: nat, now: nat): (Server, Outcome) {
    var m := Materialized(s);
    var rt := m.room.value;
    if IsStale(rt, epoch) then (m, Stale)
    else if deviceId !in rt.participants then (m, Denied(NotParticipant))
    else (SaveRuntime(c, m, rt.(persisted := rt.persisted.(leaseUntil := Some(now + c.leaseMs)))), Completed)
  }

  /** Without participants an active room starts to close. */
  function Emptied(rt: Runtime): Runtime {
    if rt.participants == map[] && rt.persisted.active then rt.(phase := Closing) else rt
  }

  function Leave(s: Server, deviceId: string, epoch: nat): (Server, Outcome) {
    var m := Materialized(s);
    var rt := m.room.value;
    if IsStale(rt, epoch) then (m, Stale)
    else if deviceId !in rt.participants then (m, Denied(NotParticipant))
    else (m.(room := Some(Emptied(rt.(participants := rt.participants - {deviceId})))), Completed)
  }

  function Disconnect(s: Server, deviceId: string): Server {
    if s.room.Some? && deviceId in s.room.value.participants
    then s.(room := Some(Emptied(s.room.value.(participants := s.room.value.participants - {deviceId})))) else s
  }

  // ---- compaction ----

  function Compact(c: Config, s: Server, throughSeq: Option<int>): Server {
    var m := Materialized(s);
    var rt := m.room.value;
    var n := throughSeq.GetOr(if rt.persisted.nextSeq == 0 then 0 else rt.persisted.nextSeq - 1);
    var store := DeleteThrough(SaveSnapshot(m.store, rt.persisted.epoch, rt.doc, n), rt.persisted.epoch, n);
    SaveRuntime(c, m.(store := store), Snapshotted(rt, n))
  }

  // ---- leaving Layer 2 ----

  function JoinAll(vv: VersionVector, joined: seq<VersionVector>): VersionVector {
    if joined == [] then vv else Join(JoinAll(vv, joined[..|joined| - 1]), joined[|joined| - 1])
  }

  /** The flush: the room's text as an update of the file, above the base and all participants. */
  function FlushOp(c: Config, rt: Runtime, joined: seq<VersionVector>): FileOp {
    var text := c.yjs.textOf(rt.doc);
    FileOp(RoomFlush(c.fileId, rt.persisted.epoch), CollabDevice(c.fileId), rt.persisted.epoch, c.fileId, Update, Note,
           Some(rt.persisted.baseVV), Some(Bump(JoinAll(rt.persisted.baseVV, joined), CollabDevice(c.fileId))),
           Some(Digest(text)), Some(ByteLength(text)), false, Some(text), None, None, None)
  }

  /** The versions the participants joined with, each once. */
  ghost predicate JoinedVersions(rt: Runtime, joined: seq<VersionVector>) {
    && (forall d :: d in rt.participants ==> rt.participants[d].joinedVV in joined)
    && (forall v :: v in joined ==> exists d :: d in rt.participants && rt.participants[d].joinedVV == v)
  }

  function Ended(rt: Runtime): Runtime {
    rt.(persisted := rt.persisted.(active := false, leaseOwner := None, leaseUntil := None), participants := map[],
        phase := Closed)
  }

  /** Closing after the flush was accepted: a last snapshot, then the lease is given up. */
  function CloseFlushed(c: Config, s: Server, rt: Runtime): Server {
    var n := rt.persisted.nextSeq - 1;
    SaveRuntime(c, s.(store := SaveSnapshot(s.store, rt.persisted.epoch, rt.doc, n)), Ended(Snapshotted(rt, n)))
  }

  function DemoteLocked(c: Config, s: Server, rt: Runtime, joined: seq<VersionVector>, now: nat,
          freshId: string): (Server, Outcome) {
    if !rt.persisted.active then (s, RoomClosed(rt.persisted.baseHash))
    else
      var op := FlushOp(c, rt, joined);
      var (layer1, result) := Process(s.layer1, op, true, now, freshId);
      if !result.Ack? then (s.(layer1 := layer1), Denied(FlushFailed))
      else (CloseFlushed(c, s.(layer1 := layer1), rt), RoomClosed(op.contentHash))
  }

  function Demote(c: Config, s: Server, epoch: Option<nat>, joined: seq<VersionVector>, now: nat,
          freshId: string): (Server, Outcome) {
    var m := Materialized(s);
    if epoch.Some? && m.room.value.persisted.epoch != epoch.value then (m, Stale)
    else DemoteLocked(c, m, m.room.value, joined, now, freshId)
  }

  /** The closing timer and the sweep of expired leases demote rooms nobody is in. */
  function CloseIdle(c: Config, s: Server, expiredOnly: bool, now: nat, freshId: string): Server {
    if s.room.None? then s
    else
      var rt := s.room.value;
      if !rt.persisted.active || rt.participants != map[] then s
      else if expiredOnly && !(rt.persisted.leaseUntil.Some? && rt.persisted.leaseUntil.value <= now) then s
      else DemoteLocked(c, s, rt, [], now, freshId).0
  }

  function CloseDeleted(c: Config, s: Server): Server {
    var m := Materialized(s);
    if m.room.value.persisted.active then SaveRuntime(c, m, Ended(m.room.value)) else m
  }

  // ---- restoring an old version ----

  function RestoreOp(c: Config, file: StoredFile, text: string, requestId: OpId, deviceSeq: nat): FileOp {
    FileOp(requestId, CollabDevice(c.fileId), deviceSeq, c.fileId, Update, Note,
           Some(file.contentVV), Some(Bump(file.contentVV, CollabDevice(c.fileId))),
           Some(Digest(text)), Some(ByteLength(text)), false, Some(text), None, None, None)
  }

  /** The old text goes into Layer 1 as an update and into the room as one more numbered update. */
  function RestoreIntoRoom(c: Config, s: Server, rt: Runtime, deviceId: string, text: string): Server {
    var n, epoch, update := rt.persisted.nextSeq, rt.persisted.epoch, c.yjs.replacing(rt.doc, text);
    var edited := rt.(doc := rt.doc + update, persisted := rt.persisted.(nextSeq := n + 1));
    var store := SaveSnapshot(AppendUpdate(s.store, epoch, StoredUpdate(n, deviceId, update)), epoch, edited.doc, n);
    SaveRuntime(c, s.(store := store, issued := s.issued + [Issued(epoch, n, update)]), Snapshotted(edited, n))
  }

  function RestoreHistory(c: Config, s: Server, mayWrite: bool, deviceId: string, version: nat, requestId: OpId,
          deviceSeq: nat, now: nat, freshId: string): (Server, Outcome) {
    if !mayWrite then (s, Denied(NoWriteRole))
    else if c.fileId !in s.layer1.files.at || s.layer1.files.at[c.fileId].deleted then (s, Denied(NoLiveFile))
    else if version >= |s.store.history| then (s, Denied(NoVersion))
    else
      var text := c.yjs.textOf(s.store.history[version].snapshot);
      var (layer1, result) := Process(s.layer1, RestoreOp(c, s.layer1.files.at[c.fileId], text, requestId, deviceSeq),
                                      true, now, freshId);
      if !result.Ack? then (s.(layer1 := layer1), Denied(FlushFailed))
      else
        var m := Materialized(s.(layer1 := layer1));
        (RestoreIntoRoom(c, m, m.room.value, deviceId, text), Completed)
  }
}
