/** From the file's text to the room's document and back: a first room opens with the text, a room nobody
    edits gives the same text back, the flush carries the document's text above every version seen in the room,
    and restoring brings the text of the chosen version. */
module RoomContent {
  import opened Options
  import opened VersionVectors
  import opened Paths
  import opened Vault
  import opened VaultRuns
  import opened ContentTable
  import opened ConflictFreeze
  import opened Rooms
  import opened RoomRuns

  /** A live, unencrypted file. */
  ghost predicate Joinable(c: Config, layer1: State) {
    && c.fileId in layer1.files.at
    && !layer1.files.at[c.fileId].deleted && !layer1.files.at[c.fileId].encrypted
  }

  /** The file's content is the text, and it can be read. */
  ghost predicate HasText(c: Config, layer1: State, t: string) {
    && Addressed(layer1.content) && c.fileId in layer1.files.at
    && layer1.files.at[c.fileId].contentHash == Some(Digest(t)) && Digest(t) in layer1.content
  }

  // ---- opening ----

  /** Opening a room: without a stored snapshot the document is the seed of the file's text, or empty if the
      file has no readable content; with one it is the snapshot. */
  lemma FirstRoomHoldsTheText(c: Config, s: Server, d: string, now: nat)
    requires Joinable(c, s.layer1) && !RoomOf(s).persisted.active
    ensures var rt, (s', r) := RoomOf(s), Promote(c, s, d, true, now);
      var hash := s.layer1.files.at[c.fileId].contentHash;
      && (forall t :: rt.persisted.snapshot.None? && HasText(c, s.layer1, t) ==>
            r == RoomState(rt.persisted.epoch + 1, c.yjs.seed(t)))
      && (rt.persisted.snapshot.None? && (hash.None? || hash.value !in s.layer1.content) ==>
            r == RoomState(rt.persisted.epoch + 1, {}))
      && (rt.persisted.snapshot.Some? ==> r == RoomState(rt.persisted.epoch + 1, rt.persisted.snapshot.value))
  {
    hide LoadedDoc;
    forall t | HasText(c, s.layer1, t) ensures s.layer1.content[Digest(t)] == t {
      assert Digest(t) == Digest(s.layer1.content[Digest(t)]);
    }
  }

  /** The text of an accepted operation is what the first room of the file opens with, whatever happens in
      between, as long as it is the file's content. */
  lemma {:induction false} AcceptedTextOpensTheRoom(c: Config, s: State, op: FileOp, mayWrite: bool, now: nat,
          freshId: string, later: seq<Event>, d: string, now': nat)
    requires Reachable(s) && Commits(s, op, mayWrite, now, freshId) && CarriesHash(op) && op.inlineText.Some?
    requires op.fileId == c.fileId
    requires var s' := Run(Process(s, op, mayWrite, now, freshId).0, later);
      Joinable(c, s') && s'.files.at[c.fileId].contentHash == Some(Digest(op.inlineText.value))
    ensures var s' := Run(Process(s, op, mayWrite, now, freshId).0, later);
      Promote(c, NoRooms(s'), d, true, now').1 == RoomState(1, c.yjs.seed(op.inlineText.value))
  {
    hide Promote, Process, Run;
    AcceptedTextStaysReadable(s, op, mayWrite, now, freshId, later);
    StaysAddressed(s, Submit(op, mayWrite, now, freshId), later);
    assert Step(s, Submit(op, mayWrite, now, freshId)) == Process(s, op, mayWrite, now, freshId).0;
    hide Reachable, Commits, Step, Addressed;
    FirstRoomHoldsTheText(c, NoRooms(Run(Process(s, op, mayWrite, now, freshId).0, later)), d, now');
  }

  lemma {:induction false} StaysAddressed(s: State, e: Event, later: seq<Event>)
    requires Reachable(s)
    ensures Addressed(Run(Step(s, e), later).content)
  {
    ReachableAddressed(s);
    hide Reachable, Run, Step, Addressed, Retains;
    StepKeepsContent(s, e);
    RunKeepsContent(Step(s, e), later);
  }

  // ---- the flush ----

  lemma {:induction false} JoinedAreDominated(vv: VersionVector, joined: seq<VersionVector>)
    ensures Dominates(JoinAll(vv, joined), vv)
    ensures forall v :: v in joined ==> Dominates(JoinAll(vv, joined), v)
  {
    hide Join;
    if joined != [] {
      hide Dominates;
      var before, last := JoinAll(vv, joined[..|joined| - 1]), joined[|joined| - 1];
      JoinedAreDominated(vv, joined[..|joined| - 1]);
      JoinIsLeastUpperBound(before, last);
      DominatesTransitive(JoinAll(vv, joined), before, vv);
      forall v | v in joined ensures Dominates(JoinAll(vv, joined), v) {
        if v in joined[..|joined| - 1] {
          DominatesTransitive(JoinAll(vv, joined), before, v);
        } else {
          assert v == last;
        }
      }
    }
  }

  /** The flush is an update of the file by the room's own device with the text of the document, on the
      epoch's base, under a version that dominates the base and what each participant joined with. */
  lemma FlushSays(c: Config, rt: Runtime, joined: seq<VersionVector>)
    ensures var op, t := FlushOp(c, rt, joined), c.yjs.textOf(rt.doc);
      && op.opId == RoomFlush(c.fileId, rt.persisted.epoch) && op.deviceId == "collab:" + c.fileId
      && op.fileId == c.fileId && op.kind == Update && op.inlineText == Some(t) && op.contentHash == Some(Digest(t))
      && op.size == Some(ByteLength(t)) && !op.encrypted && op.blobRef.None? && op.newPath.None?
      && op.baseContentVV == Some(rt.persisted.baseVV) && op.newContentVV.Some?
      && StrictlyDominates(op.newContentVV.value, rt.persisted.baseVV)
      && (JoinedVersions(rt, joined) ==>
            forall d :: d in rt.participants ==> StrictlyDominates(op.newContentVV.value, rt.participants[d].joinedVV))
  {
    var all := JoinAll(rt.persisted.baseVV, joined);
    JoinedAreDominated(rt.persisted.baseVV, joined);
    BumpStrictlyDominates(all, CollabDevice(c.fileId));
    hide ByteLength, JoinAll, Bump;
    AboveAll(Bump(all, CollabDevice(c.fileId)), all, rt.persisted.baseVV);
    forall d | JoinedVersions(rt, joined) && d in rt.participants
      ensures StrictlyDominates(Bump(all, CollabDevice(c.fileId)), rt.participants[d].joinedVV)
    {
      AboveAll(Bump(all, CollabDevice(c.fileId)), all, rt.participants[d].joinedVV);
    }
  }

  lemma AboveAll(x: VersionVector, y: VersionVector, z: VersionVector)
    requires StrictlyDominates(x, y) && Dominates(y, z)
    ensures StrictlyDominates(x, z)
  {
    DominatesTransitive(x, y, z);
    if Dominates(z, x) { DominatesTransitive(y, z, x); }
  }

  // ---- a room nobody edits ----

  /** The room holds the seed of the text and nothing else, or has never been opened. */
  ghost predicate OnlySeed(c: Config, s: Server, t: string) {
    var r := RoomRecord(s.store);
    && (forall e :: e in s.store.updates ==> s.store.updates[e] == [])
    && (r.snapshot.Some? ==> r.snapshot == Some(c.yjs.seed(t))) && (r.active ==> r.snapshot.Some?)
    && (s.room.Some? ==>
          && s.room.value.persisted == r && s.room.value.doc == r.snapshot.GetOr({})
          && (s.room.value.phase.Closed? ==> !r.active))
  }

  ghost predicate Untouched(c: Config, s: Server, t: string) {
    OnlySeed(c, s, t) && HasText(c, s.layer1, t) && Keyed(s.layer1.files.at)
  }

  /** No edit and no restore in the room, and Layer 1 requests leave the file's hash alone. */
  ghost predicate Idle(c: Config, s: Server, e: RoomEvent) {
    && !e.Edit? && !e.RestoreVersion? && (e.CompactRoom? ==> RoomRecord(s.store).snapshot.Some?)
    && (e.Layer1? && c.fileId in s.layer1.files.at ==>
          var files' := Step(s.layer1, e.event).files.at;
          c.fileId in files' && files'[c.fileId].contentHash == s.layer1.files.at[c.fileId].contentHash)
  }

  lemma SeedIsLoaded(c: Config, s: Server, t: string)
    requires OnlySeed(c, s, t)
    ensures LoadedDoc(s.store) == RoomRecord(s.store).snapshot.GetOr({}) && OnlySeed(c, Materialized(s), t)
    ensures Materialized(s).room.Some? && Materialized(s).layer1 == s.layer1 && Materialized(s).store == s.store
  {
  }

  lemma SavedIsUntouched(c: Config, s: Server, rt: Runtime, t: string)
    requires Untouched(c, s, t) && rt.persisted.snapshot.Some? && rt.persisted.snapshot == Some(rt.doc)
    requires rt.doc == c.yjs.seed(t) && (rt.phase.Closed? ==> !rt.persisted.active)
    ensures Untouched(c, SaveRuntime(c, s, rt), t)
  {
  }

  /** What the flush does to the file's hash, whether it is accepted, refused or a conflict. */
  lemma {:induction false} FlushKeepsText(c: Config, s: State, rt: Runtime, joined: seq<VersionVector>, now: nat,
          freshId: string, t: string)
    requires HasText(c, s, t) && Keyed(s.files.at) && c.yjs.textOf(rt.doc) == t
    ensures var s' := Process(s, FlushOp(c, rt, joined), true, now, freshId).0; HasText(c, s', t) && Keyed(s'.files.at)
  {
    var op := FlushOp(c, rt, joined);
    var submit := Submit(op, true, now, freshId);
    assert Step(s, submit) == Process(s, op, true, now, freshId).0;
    StepKeepsKeyed(s, submit);
    StepKeepsContent(s, submit);
    ProcessCases(s, op, true, now, freshId);
    if Commits(s, op, true, now, freshId) {
      UpdateHash(s, op, now, freshId);
      EffectCases(s, op, now, freshId);
    }
    hide Process, Step, Prepare, Admission, StoredContent, Addressed, FlushOp, Record;
    assert op.contentHash == Some(Digest(t)) && op.fileId == c.fileId by { FlushSays(c, rt, joined); }
  }

  lemma UpdateHash(s: State, op: FileOp, now: nat, freshId: string)
    requires Prepare(s, op, now, freshId).Success? && op.kind.Update? && op.contentHash.Some?
    ensures var file := Prepare(s, op, now, freshId).value.file;
      op.fileId in s.files.at
      && (file.contentHash == op.contentHash || file.contentHash == s.files.at[op.fileId].contentHash)
  {
    hide Validate, Dominates, CreateConflict, UpdatedRefs, SideRef;
  }

  lemma {:induction false} DemoteKeepsText(c: Config, s: Server, rt: Runtime, joined: seq<VersionVector>, now: nat,
          freshId: string, t: string)
    requires Untouched(c, s, t) && s.room == Some(rt) && c.yjs.textOf(c.yjs.seed(t)) == t
    ensures Untouched(c, DemoteLocked(c, s, rt, joined, now, freshId).0, t)
  {
    if rt.persisted.active {
      FlushKeepsText(c, s.layer1, rt, joined, now, freshId, t);
      var (layer1, r) := Process(s.layer1, FlushOp(c, rt, joined), true, now, freshId);
      hide Process, FlushOp;
      if r.Ack? {
        var n := rt.persisted.nextSeq - 1;
        var saved := s.(layer1 := layer1, store := SaveSnapshot(s.store, rt.persisted.epoch, rt.doc, n));
        assert OnlySeed(c, saved.(room := None), t);
        SavedIsUntouched(c, saved.(room := None), Ended(Snapshotted(rt, n)), t);
      }
    }
  }

  lemma {:induction false} ActivateKeepsText(c: Config, s: Server, rt: Runtime, d: string, now: nat, t: string)
    requires Untouched(c, s, t) && s.room == Some(rt) && !rt.persisted.active
    ensures var a := Activate(c, s, rt, s.layer1.files.at[c.fileId], d, now);
      && Untouched(c, a.(room := None), t) && a.room.Some? && a.room.value.doc == c.yjs.seed(t)
      && a.room.value.persisted.snapshot == Some(c.yjs.seed(t))
  {
    var file := s.layer1.files.at[c.fileId];
    assert SeedDoc(c, s.layer1, file) == c.yjs.seed(t) by {
      assert Digest(t) == Digest(s.layer1.content[Digest(t)]);
    }
    hide Addressed, SeedDoc;
  }

  lemma {:induction false} PromoteKeepsText(c: Config, s: Server, d: string, mayEdit: bool, now: nat, t: string)
    requires Untouched(c, s, t)
    ensures Untouched(c, Promote(c, s, d, mayEdit, now).0, t)
  {
    SeedIsLoaded(c, s, t);
    hide LoadedDoc, Addressed, Activate;
    var m := Materialized(s);
    var rt := m.room.value;
    if mayEdit && Joinable(c, m.layer1) {
      var file := m.layer1.files.at[c.fileId];
      if !rt.persisted.active { ActivateKeepsText(c, m, rt, d, now, t); }
      var a := if rt.persisted.active then m else Activate(c, m, rt, file, d, now);
      assert SaveRuntime(c, a.(room := None), a.room.value) == SaveRuntime(c, a, a.room.value);
      var entered := a.room.value.(persisted := Leased(c, a.room.value.persisted, d, now), phase := Active,
          participants := a.room.value.participants[d := Participant(file.contentVV, mayEdit, now, 0)]);
      SavedIsUntouched(c, a.(room := None), entered, t);
    }
  }

  lemma {:induction false} LeavingKeepsText(c: Config, s: Server, e: RoomEvent, t: string)
    requires Untouched(c, s, t) && (e.LeaveRoom? || e.DropDevice? || e.Reload?)
    ensures Untouched(c, RoomStep(c, s, e), t)
  {
    SeedIsLoaded(c, s, t);
    hide LoadedDoc, Addressed;
  }

  lemma {:induction false} SavingKeepsText(c: Config, s: Server, e: RoomEvent, t: string)
    requires Untouched(c, s, t) && (e.Beat? || e.FileDeleted?)
    ensures Untouched(c, RoomStep(c, s, e), t)
  {
    SeedIsLoaded(c, s, t);
    hide LoadedDoc, Addressed;
    var m := Materialized(s);
    var rt := m.room.value;
    hide SaveRuntime;
    if e.Beat? && !IsStale(rt, e.epoch) {
      SavedIsUntouched(c, m, rt.(persisted := rt.persisted.(leaseUntil := Some(e.now + c.leaseMs))), t);
    } else if e.FileDeleted? && rt.persisted.active {
      SavedIsUntouched(c, m, Ended(rt), t);
    }
  }

  lemma {:induction false} CompactKeepsText(c: Config, s: Server, throughSeq: Option<int>, t: string)
    requires Untouched(c, s, t) && RoomRecord(s.store).snapshot.Some?
    ensures Untouched(c, Compact(c, s, throughSeq), t)
  {
    SeedIsLoaded(c, s, t);
    hide LoadedDoc, Addressed;
    var m := Materialized(s);
    var rt := m.room.value;
    var n := throughSeq.GetOr(if rt.persisted.nextSeq == 0 then 0 else rt.persisted.nextSeq - 1);
    var store := DeleteThrough(SaveSnapshot(m.store, rt.persisted.epoch, rt.doc, n), rt.persisted.epoch, n);
    assert OnlySeed(c, m.(store := store, room := None), t);
    SavedIsUntouched(c, m.(store := store, room := None), Snapshotted(rt, n), t);
  }

  lemma {:induction false} StepKeepsText(c: Config, s: Server, e: RoomEvent, t: string)
    requires Untouched(c, s, t) && Idle(c, s, e) && c.yjs.textOf(c.yjs.seed(t)) == t
    ensures Untouched(c, RoomStep(c, s, e), t)
  {
    SeedIsLoaded(c, s, t);
    hide LoadedDoc, OnlySeed, DemoteLocked, Promote, Step, Heartbeat, Leave, Disconnect, Compact, CloseDeleted;
    match e
    case PromoteRoom(d, mayEdit, now) => PromoteKeepsText(c, s, d, mayEdit, now, t);
    case DemoteRoom(_, joined, now, freshId) =>
      var m := Materialized(s);
      DemoteKeepsText(c, m, m.room.value, joined, now, freshId, t);
    case IdleRoom(_, now, freshId) =>
      if s.room.Some? { DemoteKeepsText(c, s, s.room.value, [], now, freshId, t); }
    case Layer1(event) =>
      StepKeepsContent(s.layer1, event);
      StepKeepsKeyed(s.layer1, event);
      hide Addressed;
      assert OnlySeed(c, s.(layer1 := Step(s.layer1, event)), t) by { SameRoom(c, s, Step(s.layer1, event), t); }
    case Beat(_, _, _) => SavingKeepsText(c, s, e, t);
    case CompactRoom(throughSeq) => CompactKeepsText(c, s, throughSeq, t);
    case FileDeleted => SavingKeepsText(c, s, e, t);
    case _ => LeavingKeepsText(c, s, e, t);
  }

  lemma SameRoom(c: Config, s: Server, layer1: State, t: string)
    requires OnlySeed(c, s, t)
    ensures OnlySeed(c, s.(layer1 := layer1), t)
  {
  }

  ghost predicate IdleRun(c: Config, s: Server, events: seq<RoomEvent>) {
    events != [] ==>
      && IdleRun(c, s, events[..|events| - 1])
      && Idle(c, RoomRun(c, s, events[..|events| - 1]), events[|events| - 1])
  }

  /** From a file with readable text on, in every run in which the room is joined, left, demoted, swept, compacted
      while open, closed for a deletion and reloaded in any order and by anyone, but nobody edits, the file's
      hash stays that of the text, and an open room holds the seed of the text. */
  lemma {:induction false} UneditedRoomKeepsTheText(c: Config, layer1: State, events: seq<RoomEvent>, t: string)
    requires Reachable(layer1) && HasText(c, layer1, t) && c.yjs.textOf(c.yjs.seed(t)) == t
    requires IdleRun(c, NoRooms(layer1), events)
    ensures var s := RoomRun(c, NoRooms(layer1), events);
      && c.fileId in s.layer1.files.at && s.layer1.files.at[c.fileId].contentHash == Some(Digest(t))
      && (RoomOf(s).persisted.active ==> RoomOf(s).doc == c.yjs.seed(t))
  {
    hide Reachable;
    RunKeepsText(c, layer1, events, t);
    var s := RoomRun(c, NoRooms(layer1), events);
    hide RoomRun, IdleRun;
    SeedIsLoaded(c, s, t);
    hide LoadedDoc;
  }

  lemma {:induction false} RunKeepsText(c: Config, layer1: State, events: seq<RoomEvent>, t: string)
    requires Reachable(layer1) && HasText(c, layer1, t) && c.yjs.textOf(c.yjs.seed(t)) == t
    requires IdleRun(c, NoRooms(layer1), events)
    ensures Untouched(c, RoomRun(c, NoRooms(layer1), events), t)
  {
    hide RoomStep, Idle;
    if events == [] {
      ReachableFreeze(layer1);
    } else {
      hide Reachable, Untouched;
      RunKeepsText(c, layer1, events[..|events| - 1], t);
      StepKeepsText(c, RoomRun(c, NoRooms(layer1), events[..|events| - 1]), events[|events| - 1], t);
    }
  }

  // ---- restoring a version ----

  /** The Layer 1 side: a new request is an accepted update to the version's text, on top of the stored version. */
  lemma RestoreOverwrites(c: Config, s: State, text: string, requestId: OpId, deviceSeq: nat, now: nat, freshId: string)
    requires Joined(c, s) && requestId !in s.journal.opsById
    ensures var file, op := s.files.at[c.fileId], RestoreOp(c, s.files.at[c.fileId], text, requestId, deviceSeq);
      var (s', r) := Process(s, op, true, now, freshId);
      && (r.Ack? ==>
            && r.conflictId.None? && c.fileId in s'.files.at && s'.files.at[c.fileId].contentHash == Some(Digest(text))
            && s'.files.at[c.fileId].size == Some(ByteLength(text)) && s'.files.at[c.fileId].blobRef.None?
            && StrictlyDominates(s'.files.at[c.fileId].contentVV, file.contentVV)
            && Digest(text) in s'.content && s'.content[Digest(text)] == text
            && s'.journal.nextSeq == s.journal.nextSeq + 1)
      && (!r.Ack? ==> s' == s.(content := s'.content))
  {
    var file, op := s.files.at[c.fileId], RestoreOp(c, s.files.at[c.fileId], text, requestId, deviceSeq);
    BumpStrictlyDominates(file.contentVV, CollabDevice(c.fileId));
    ProcessCases(s, op, true, now, freshId);
    hide Process, ByteLength, Bump, Dominates, ValidateBlob, ValidateShape, UpdatedRefs, CreateConflict, InsertBySeq;
  }

  ghost predicate Joined(c: Config, layer1: State) {
    c.fileId in layer1.files.at && !layer1.files.at[c.fileId].deleted && layer1.files.at[c.fileId].fileId == c.fileId
  }

  /** The text has been brought into the room rt by an update under the next number, covered by a snapshot. */
  ghost predicate Brought(c: Config, s: Server, rt: Runtime, d: string, text: string, s': Server) {
    var update, epoch, n := c.yjs.replacing(rt.doc, text), rt.persisted.epoch, rt.persisted.nextSeq;
    && s'.issued == s.issued + [Issued(epoch, n, update)] && s'.room.Some?
    && s'.room.value.doc == rt.doc + update && s'.room.value.participants == rt.participants
    && s'.room.value.persisted == rt.persisted.(nextSeq := n + 1, snapshot := Some(rt.doc + update),
         compactedThroughSeq := n)
    && s'.store.room == Some(s'.room.value.persisted)
    && s'.store.history == s.store.history + [Version(epoch, n, rt.doc + update)]
    && StoredUpdate(n, d, update) in UpdatesOf(s'.store, epoch)
    && (c.yjs.textOf(rt.doc + update) == text ==> c.yjs.textOf(s'.room.value.doc) == text)
  }

  lemma RoomTakesText(c: Config, s: Server, rt: Runtime, d: string, text: string)
    ensures var s' := RestoreIntoRoom(c, s, rt, d, text);
      && Brought(c, s, rt, d, text, s') && s'.layer1.content == s.layer1.content
      && (forall f :: f in s.layer1.files.at ==>
            f in s'.layer1.files.at && s'.layer1.files.at[f].contentHash == s.layer1.files.at[f].contentHash)
  {
    InsertedIsThere(UpdatesOf(s.store, rt.persisted.epoch),
                    StoredUpdate(rt.persisted.nextSeq, d, c.yjs.replacing(rt.doc, text)));
    hide InsertUpdate;
  }

  /** Restoring: refused without write role, live file or such a version. Otherwise the text of exactly that
      version is sent to Layer 1, and once it is acknowledged the update that turns the document into it is
      stored and merged under the next number and covered by a snapshot. */
  lemma RestoreDecides(c: Config, s: Server, mayWrite: bool, d: string, version: nat, requestId: OpId, deviceSeq: nat,
          now: nat, freshId: string)
    ensures var (s', r) := RestoreHistory(c, s, mayWrite, d, version, requestId, deviceSeq, now, freshId);
      var live := c.fileId in s.layer1.files.at && !s.layer1.files.at[c.fileId].deleted;
      && (!mayWrite ==> s' == s && r == Denied(NoWriteRole))
      && (mayWrite && !live ==> s' == s && r == Denied(NoLiveFile))
      && (mayWrite && live && version >= |s.store.history| ==> s' == s && r == Denied(NoVersion))
      && (mayWrite && live && version < |s.store.history| ==>
            var text := c.yjs.textOf(s.store.history[version].snapshot);
            && (r == Completed || (r == Denied(FlushFailed) && s' == s.(layer1 := s'.layer1)))
            && (r == Completed ==>
                  && Brought(c, s, RoomOf(s), d, text, s')
                  && (requestId !in s.layer1.journal.opsById && Joined(c, s.layer1) ==>
                        && c.fileId in s'.layer1.files.at
                        && s'.layer1.files.at[c.fileId].contentHash == Some(Digest(text))
                        && Digest(text) in s'.layer1.content && s'.layer1.content[Digest(text)] == text)))
  {
    hide LoadedDoc, Process, RestoreOp, RestoreIntoRoom;
    if mayWrite && c.fileId in s.layer1.files.at && !s.layer1.files.at[c.fileId].deleted
        && version < |s.store.history|
    {
      var text := c.yjs.textOf(s.store.history[version].snapshot);
      if requestId !in s.layer1.journal.opsById && Joined(c, s.layer1) {
        RestoreOverwrites(c, s.layer1, text, requestId, deviceSeq, now, freshId);
      }
      var op := RestoreOp(c, s.layer1.files.at[c.fileId], text, requestId, deviceSeq);
      var m := Materialized(s.(layer1 := Process(s.layer1, op, true, now, freshId).0));
      RoomTakesText(c, m, RoomOf(s), d, text);
      assert m.room == Some(RoomOf(s)) && m.store == s.store && m.issued == s.issued;
    }
    hide Brought, ByteLength, StrictlyDominates;
  }

  lemma {:induction false} InsertedIsThere(list: seq<StoredUpdate>, u: StoredUpdate)
    ensures u in InsertUpdate(list, u)
  {
    if list != [] { InsertedIsThere(list[..|list| - 1], u); }
  }
}
