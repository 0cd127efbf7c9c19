/** While a room is active its file's content changes in the room only: the stored version stays the
    one the room started from, and the flush that ends the epoch is always accepted. */
module LaneExclusion {
  import opened Options
  import opened VersionVectors
  import opened Paths
  import opened Vault
  import opened VaultRuns
  import opened ConflictFreeze
  import opened Rooms
  import opened RoomRuns

  /** The file is as it was when the epoch began, and leased. */
  ghost predicate Held(files: Files, f: string, r: PersistedRoom) {
    && f in files && files[f].contentVV == r.baseVV && files[f].conflictId.None?
    && r.leaseUntil.Some? && files[f].activeUntil == r.leaseUntil && r.epoch >= 1
  }

  /** Only past epochs have been flushed. */
  ghost predicate FlushedPast(opsById: map<OpId, StoredOp>, f: string, r: PersistedRoom) {
    forall e: nat :: RoomFlush(f, e) in opsById ==> e < r.epoch || (e == r.epoch && !r.active)
  }

  ghost predicate RoomInSync(s: Server) {
    s.room.Some? ==>
      s.room.value.persisted == RoomRecord(s.store) && (s.room.value.phase.Closed? <==> !s.room.value.persisted.active)
  }

  ghost predicate Exclusive(c: Config, s: Server) {
    && Freeze(s.layer1.files.at, s.layer1.conflicts.at)
    && FlushedPast(s.layer1.journal.opsById, c.fileId, RoomRecord(s.store)) && RoomInSync(s)
    && (RoomRecord(s.store).active ==> Held(s.layer1.files.at, c.fileId, RoomRecord(s.store)))
  }

  // ---- the conditions on a run ----

  ghost predicate FreshConflictId(layer1: State, freshId: string) {
    freshId !in layer1.conflicts.at && freshId != ""
  }

  /** Layer 1 requests of devices and of other rooms: no content operation on the file is accepted
      after the lease has lapsed. */
  ghost predicate KeepsOut(c: Config, s: Server, e: Event) {
    && Enabled(s.layer1, e)
    && (e.Lease? ==> e.fileId != c.fileId)
    && (e.Submit? && Commits(s.layer1, e.op, e.mayWrite, e.now, e.freshId) ==>
          && e.op.opId.Uuid? && !(e.op.fileId == c.fileId && Synthetic(e.op))
          && (e.op.fileId == c.fileId && ContentKind(e.op.kind) && RoomRecord(s.store).active ==>
                RoomRecord(s.store).leaseUntil.Some? && e.now < RoomRecord(s.store).leaseUntil.value))
  }

  predicate LiveFile(c: Config, layer1: State) {
    c.fileId in layer1.files.at && !layer1.files.at[c.fileId].deleted
  }

  /** The Layer 1 operation of restoring an old version is accepted. */
  ghost predicate RestoreCommits(c: Config, s: Server, e: RoomEvent)
    requires e.RestoreVersion?
  {
    && e.mayWrite && LiveFile(c, s.layer1) && e.version < |s.store.history|
    && var text := c.yjs.textOf(s.store.history[e.version].snapshot);
       var op := RestoreOp(c, s.layer1.files.at[c.fileId], text, e.requestId, e.deviceSeq);
       Commits(s.layer1, op, true, e.now, e.freshId)
  }

  /** No conflict is pending when the room is activated, and no old version is restored meanwhile. */
  ghost predicate Allowed(c: Config, s: Server, e: RoomEvent) {
    match e
    case PromoteRoom(_, mayEdit, _) =>
      mayEdit && !RoomRecord(s.store).active && LiveFile(c, s.layer1) && !s.layer1.files.at[c.fileId].encrypted ==>
        s.layer1.files.at[c.fileId].conflictId.None?
    case RestoreVersion(_, _, _, requestId, _, _, freshId) =>
      && FreshConflictId(s.layer1, freshId)
      && (RestoreCommits(c, s, e) ==> !RoomRecord(s.store).active && requestId.Uuid?)
    case DemoteRoom(_, _, _, freshId) =>
      FreshConflictId(s.layer1, freshId) && RoomRecord(s.store).epoch <= MAX_SAFE_INTEGER
    case IdleRoom(_, _, freshId) => FreshConflictId(s.layer1, freshId) && RoomRecord(s.store).epoch <= MAX_SAFE_INTEGER
    case Layer1(event) => KeepsOut(c, s, event)
    case _ => true
  }

  // ---- Layer 1 steps ----

  lemma BlockedByLease(s: State, op: FileOp, now: nat, freshId: string)
    requires op.fileId in s.files.at && ActiveAt(s.files.at[op.fileId], now) && ContentKind(op.kind) && !Synthetic(op)
    ensures Prepare(s, op, now, freshId).Failure?
  {
    hide Validate, Apply;
  }

  lemma SubmitKeepsFile(s: State, e: Event, f: string)
    requires Keyed(s.files.at) && f in s.files.at && e.Submit?
    requires Commits(s, e.op, e.mayWrite, e.now, e.freshId) && e.op.fileId == f && ContentKind(e.op.kind) ==>
      !Synthetic(e.op) && ActiveAt(s.files.at[f], e.now)
    ensures var files' := Step(s, e).files.at;
      && f in files' && files'[f].contentVV == s.files.at[f].contentVV
      && files'[f].conflictId == s.files.at[f].conflictId
      && files'[f].activeUntil == s.files.at[f].activeUntil
  {
    ProcessCases(s, e.op, e.mayWrite, e.now, e.freshId);
    hide Process, Prepare, Admission, Record, StoredContent;
    if Commits(s, e.op, e.mayWrite, e.now, e.freshId) {
      if e.op.fileId == f && ContentKind(e.op.kind) { BlockedByLease(s, e.op, e.now, e.freshId); }
      EffectCases(s, e.op, e.now, e.freshId);
    }
  }

  lemma OtherKeepsFile(s: State, e: Event, f: string)
    requires Freeze(s.files.at, s.conflicts.at) && f in s.files.at && s.files.at[f].conflictId.None?
    requires !e.Submit? && (e.Lease? ==> e.fileId != f)
    ensures Step(s, e).files.at.Keys >= s.files.at.Keys && Step(s, e).files.at[f] == s.files.at[f]
  {
    hide Resolve, Freeze;
    if e.ResolveConflict? {
      ResolveElsewhere(s, e.input, e.mayWrite, f);
    }
  }

  lemma ResolveElsewhere(s: State, input: ResolveInput, mayWrite: bool, f: string)
    requires Freeze(s.files.at, s.conflicts.at) && f in s.files.at && s.files.at[f].conflictId.None?
    ensures var files' := Resolve(s, input, mayWrite).0.files.at;
      files'.Keys >= s.files.at.Keys && files'[f] == s.files.at[f]
  {
    ResolveCases(s, input, mayWrite);
    hide Resolve, JoinedVV;
  }

  lemma NoFlushBySubmit(s: State, e: Event, f: string, epoch: nat)
    requires e.Submit? && Commits(s, e.op, e.mayWrite, e.now, e.freshId) ==> e.op.opId.Uuid?
    requires RoomFlush(f, epoch) in Step(s, e).journal.opsById
    ensures RoomFlush(f, epoch) in s.journal.opsById
  {
    if e.Submit? {
      ProcessCases(s, e.op, e.mayWrite, e.now, e.freshId);
      hide Process, Prepare, Admission, StoredContent, InsertBySeq;
    } else {
      hide Resolve, Claim, Release, GcUnreferenced, InitUpload, CompleteUpload;
      assert Step(s, e).journal.opsById == s.journal.opsById by { OthersKeepIds(s, e); }
    }
  }

  lemma OthersKeepIds(s: State, e: Event)
    requires !e.Submit?
    ensures OtherStep(s, e).journal.opsById == s.journal.opsById
  {
  }

  lemma {:induction false} Layer1Keeps(c: Config, s: Server, e: Event)
    requires Exclusive(c, s) && KeepsOut(c, s, e)
    ensures Exclusive(c, s.(layer1 := Step(s.layer1, e)))
  {
    StepKeepsFreeze(s.layer1, e);
    forall epoch: nat | RoomFlush(c.fileId, epoch) in Step(s.layer1, e).journal.opsById
      ensures RoomFlush(c.fileId, epoch) in s.layer1.journal.opsById
    {
      NoFlushBySubmit(s.layer1, e, c.fileId, epoch);
    }
    if RoomRecord(s.store).active {
      if e.Submit? {
        SubmitKeepsFile(s.layer1, e, c.fileId);
      } else {
        OtherKeepsFile(s.layer1, e, c.fileId);
      }
    }
    hide Step, Freeze;
  }

  // ---- saving the room ----

  /** Saving writes the lease onto the file and nothing else. */
  lemma SaveKeeps(c: Config, s: Server, rt: Runtime)
    requires Freeze(s.layer1.files.at, s.layer1.conflicts.at)
    requires FlushedPast(s.layer1.journal.opsById, c.fileId, rt.persisted)
    requires rt.phase.Closed? <==> !rt.persisted.active
    requires rt.persisted.active ==>
      && c.fileId in s.layer1.files.at && s.layer1.files.at[c.fileId].contentVV == rt.persisted.baseVV
      && s.layer1.files.at[c.fileId].conflictId.None?
      && rt.persisted.leaseUntil.Some? && rt.persisted.epoch >= 1
    ensures Exclusive(c, SaveRuntime(c, s, rt))
  {
    LeaseKeepsFreeze(s.layer1, c.fileId, if rt.persisted.active then rt.persisted.leaseUntil else None);
    hide Freeze;
  }

  lemma MaterializeExclusive(c: Config, s: Server)
    requires Exclusive(c, s)
    ensures Exclusive(c, Materialized(s)) && Materialized(s).room.Some? && Materialized(s).layer1 == s.layer1
    ensures Materialized(s).store == s.store
  {
    hide Freeze, LoadedDoc;
  }

  // ---- the flush ----

  lemma {:induction false} JoinAllDominates(vv: VersionVector, joined: seq<VersionVector>)
    ensures Dominates(JoinAll(vv, joined), vv)
  {
    if joined != [] {
      var before := JoinAll(vv, joined[..|joined| - 1]);
      JoinAllDominates(vv, joined[..|joined| - 1]);
      JoinIsLeastUpperBound(before, joined[|joined| - 1]);
      DominatesTransitive(JoinAll(vv, joined), before, vv);
    }
  }

  lemma FlushDominates(c: Config, rt: Runtime, joined: seq<VersionVector>)
    ensures Dominates(FlushOp(c, rt, joined).newContentVV.value, rt.persisted.baseVV)
  {
    var all := JoinAll(rt.persisted.baseVV, joined);
    JoinAllDominates(rt.persisted.baseVV, joined);
    BumpStrictlyDominates(all, CollabDevice(c.fileId));
    DominatesTransitive(Bump(all, CollabDevice(c.fileId)), all, rt.persisted.baseVV);
  }

  /** The outcome the flush is meant to have. */
  ghost predicate FlushLands(c: Config, s: State, s': State, rt: Runtime, r: OpResult) {
    && r.Ack? && r.conflictId.None? && c.fileId in s.files.at && c.fileId in s'.files.at
    && s'.files.at[c.fileId].contentHash == Some(Digest(c.yjs.textOf(rt.doc))) && s'.files.at[c.fileId].conflictId.None?
    && Dominates(s'.files.at[c.fileId].contentVV, s.files.at[c.fileId].contentVV)
    && s'.files.at.Keys == s.files.at.Keys
    && s'.journal.opsById.Keys == s.journal.opsById.Keys + {RoomFlush(c.fileId, rt.persisted.epoch)}
  }

  lemma FlushIsValid(c: Config, s: State, rt: Runtime, joined: seq<VersionVector>)
    requires c.fileId != "" && 1 <= rt.persisted.epoch <= MAX_SAFE_INTEGER
    ensures Validate(s, FlushOp(c, rt, joined)).None? && Synthetic(FlushOp(c, rt, joined))
  {
    hide JoinAll, ByteLength;
  }

  lemma FlushPrepares(c: Config, s: State, rt: Runtime, joined: seq<VersionVector>, now: nat, freshId: string)
    requires c.fileId != "" && rt.persisted.epoch <= MAX_SAFE_INTEGER && Held(s.files.at, c.fileId, rt.persisted)
    ensures var op := FlushOp(c, rt, joined);
      && Prepare(s, op, now, freshId).Success?
      && var e := Prepare(s, op, now, freshId).value;
         e.conflictId.None? && e.file == Overwritten(op, s.files.at[c.fileId])
  {
    FlushIsValid(c, s, rt, joined);
    FlushDominates(c, rt, joined);
    hide Validate, Synthetic, Dominates, JoinAll, UpdatedRefs, ApplyCreate, ApplyRename, ApplyRestore, Overwritten,
         ByteLength;
  }

  lemma FlushIsAccepted(c: Config, s: State, rt: Runtime, joined: seq<VersionVector>, now: nat, freshId: string)
    requires c.fileId != "" && rt.persisted.epoch <= MAX_SAFE_INTEGER && Held(s.files.at, c.fileId, rt.persisted)
    requires RoomFlush(c.fileId, rt.persisted.epoch) !in s.journal.opsById
    ensures var (s', r) := Process(s, FlushOp(c, rt, joined), true, now, freshId); FlushLands(c, s, s', rt, r)
  {
    var op := FlushOp(c, rt, joined);
    FlushIsValid(c, s, rt, joined);
    FlushPrepares(c, s, rt, joined, now, freshId);
    FlushDominates(c, rt, joined);
    ProcessCases(s, op, true, now, freshId);
    hide Process, Prepare, Validate, StoredContent, InsertBySeq, JoinAll, Dominates, ByteLength;
  }

  lemma {:induction false} DemoteKeepsExclusive(c: Config, s: Server, rt: Runtime, joined: seq<VersionVector>, now: nat,
          freshId: string)
    requires Exclusive(c, s) && s.room == Some(rt) && c.fileId != "" && rt.persisted.epoch <= MAX_SAFE_INTEGER
    requires FreshConflictId(s.layer1, freshId)
    ensures Exclusive(c, DemoteLocked(c, s, rt, joined, now, freshId).0)
  {
    if rt.persisted.active {
      var op := FlushOp(c, rt, joined);
      FlushIsAccepted(c, s.layer1, rt, joined, now, freshId);
      StepKeepsFreeze(s.layer1, Submit(op, true, now, freshId));
      var (layer1, r) := Process(s.layer1, op, true, now, freshId);
      assert Step(s.layer1, Submit(op, true, now, freshId)) == layer1;
      hide Process, Freeze, FlushOp, Step;
      var n := rt.persisted.nextSeq - 1;
      SaveKeeps(c, s.(layer1 := layer1, store := SaveSnapshot(s.store, rt.persisted.epoch, rt.doc, n)),
                Ended(Snapshotted(rt, n)));
    }
  }

  // ---- the other operations of a room ----

  lemma {:induction false} PromoteKeepsExclusive(c: Config, s: Server, deviceId: string, mayEdit: bool, now: nat)
    requires Exclusive(c, s) && Allowed(c, s, PromoteRoom(deviceId, mayEdit, now))
    ensures Exclusive(c, Promote(c, s, deviceId, mayEdit, now).0)
  {
    hide LoadedDoc, Freeze, SeedDoc;
    MaterializeExclusive(c, s);
    var m := Materialized(s);
    var rt := m.room.value;
    if mayEdit && c.fileId in m.layer1.files.at && !m.layer1.files.at[c.fileId].deleted
        && !m.layer1.files.at[c.fileId].encrypted
    {
      var file := m.layer1.files.at[c.fileId];
      if rt.persisted.active {
        EnterKeepsExclusive(c, m, rt, file, deviceId, mayEdit, now);
      } else {
        EnterAfterActivation(c, m, rt, file, deviceId, mayEdit, now);
      }
    }
  }

  lemma EnterKeepsExclusive(c: Config, s: Server, rt: Runtime, file: StoredFile, deviceId: string, mayEdit: bool,
          now: nat)
    requires Exclusive(c, s) && s.room == Some(rt) && rt.persisted.active
    ensures Exclusive(c, Enter(c, s, rt, file, deviceId, mayEdit, now))
  {
    hide Freeze;
    var p := Leased(c, rt.persisted, deviceId, now);
    SaveKeeps(c, s,
              rt.(persisted := p, phase := Active,
                  participants := rt.participants[deviceId := Participant(file.contentVV, mayEdit, now, 0)]));
  }

  lemma EnterAfterActivation(c: Config, s: Server, rt: Runtime, file: StoredFile, deviceId: string, mayEdit: bool,
          now: nat)
    requires Exclusive(c, s) && s.room == Some(rt) && !rt.persisted.active
    requires c.fileId in s.layer1.files.at && file == s.layer1.files.at[c.fileId] && file.conflictId.None?
    ensures var a := Activate(c, s, rt, file, deviceId, now);
      a.room.Some? && Exclusive(c, Enter(c, a, a.room.value, file, deviceId, mayEdit, now))
  {
    hide Freeze, SeedDoc;
    var a := Activate(c, s, rt, file, deviceId, now);
    var rt' := a.room.value;
    LeaseKeepsFreeze(s.layer1, c.fileId, rt'.persisted.leaseUntil);
    var p := Leased(c, rt'.persisted, deviceId, now);
    SaveKeeps(c, a,
              rt'.(persisted := p, phase := Active,
                   participants := rt'.participants[deviceId := Participant(file.contentVV, mayEdit, now, 0)]));
  }

  /** Everything a room does while active that only touches its own record and document. */
  lemma RecordKeeps(c: Config, s: Server, s': Server, rt: Runtime)
    requires Exclusive(c, s) && RoomRecord(s.store).active && s'.layer1 == s.layer1
    requires rt.persisted.active && !rt.phase.Closed? && rt.persisted.baseVV == RoomRecord(s.store).baseVV
    requires rt.persisted.epoch == RoomRecord(s.store).epoch
    requires rt.persisted.leaseUntil.Some?
    ensures Exclusive(c, SaveRuntime(c, s', rt))
  {
    hide Freeze;
    SaveKeeps(c, s', rt);
  }

  lemma {:induction false} EditKeepsExclusive(c: Config, s: Server, mayWrite: bool, deviceId: string, epoch: nat,
          update: Doc, now: nat)
    requires Exclusive(c, s)
    ensures Exclusive(c, HandleUpdate(c, s, mayWrite, deviceId, epoch, update, now).0)
  {
    hide LoadedDoc, Freeze, InsertUpdate, Cadence, Limited;
    MaterializeExclusive(c, s);
    var m := Materialized(s);
    var rt := m.room.value;
    if mayWrite && !IsStale(rt, epoch) && deviceId in rt.participants {
      var limited := rt.(participants := rt.participants[deviceId := Limited(c, rt.participants[deviceId], now)]);
      var edited := Edited(c, limited, deviceId, update, now);
      var n := rt.persisted.nextSeq;
      var stored := m.(store := AppendUpdate(m.store, rt.persisted.epoch, StoredUpdate(n, deviceId, update)),
                       issued := m.issued + [Issued(rt.persisted.epoch, n, update)]);
      RecordKeeps(c, m, stored, edited);
      RecordKeeps(c, m, stored.(store := SaveSnapshot(stored.store, rt.persisted.epoch, edited.doc, n)),
                  Snapshotted(edited, n));
    }
    hide SaveRuntime;
  }

  lemma BeatKeepsExclusive(c: Config, s: Server, deviceId: string, epoch: nat, now: nat)
    requires Exclusive(c, s)
    ensures Exclusive(c, Heartbeat(c, s, deviceId, epoch, now).0)
  {
    hide LoadedDoc, Freeze;
    MaterializeExclusive(c, s);
    var m := Materialized(s);
    var rt := m.room.value;
    if !IsStale(rt, epoch) {
      RecordKeeps(c, m, m, rt.(persisted := rt.persisted.(leaseUntil := Some(now + c.leaseMs))));
    }
    hide SaveRuntime;
  }

  lemma LeaveKeepsExclusive(c: Config, s: Server, deviceId: string, epoch: nat)
    requires Exclusive(c, s)
    ensures Exclusive(c, Leave(s, deviceId, epoch).0) && Exclusive(c, Disconnect(s, deviceId))
  {
    hide LoadedDoc, Freeze;
  }

  lemma CompactKeepsExclusive(c: Config, s: Server, throughSeq: Option<int>)
    requires Exclusive(c, s)
    ensures Exclusive(c, Compact(c, s, throughSeq))
  {
    hide LoadedDoc, Freeze, UpdatesAfter;
    MaterializeExclusive(c, s);
    var m := Materialized(s);
    var rt := m.room.value;
    var n := throughSeq.GetOr(if rt.persisted.nextSeq == 0 then 0 else rt.persisted.nextSeq - 1);
    var store := DeleteThrough(SaveSnapshot(m.store, rt.persisted.epoch, rt.doc, n), rt.persisted.epoch, n);
    SaveKeeps(c, m.(store := store), Snapshotted(rt, n));
  }

  lemma DeletedKeepsExclusive(c: Config, s: Server)
    requires Exclusive(c, s)
    ensures Exclusive(c, CloseDeleted(c, s))
  {
    hide LoadedDoc, Freeze;
    MaterializeExclusive(c, s);
    var m := Materialized(s);
    if m.room.value.persisted.active { SaveKeeps(c, m, Ended(m.room.value)); }
  }

  /** The Layer 1 side of a restore: accepted with no room active, or without effect on files and ids. */
  lemma {:induction false} RestoredLayer1(c: Config, s: Server, e: RoomEvent, submit: Event)
    requires Exclusive(c, s) && e.RestoreVersion? && Allowed(c, s, e) && submit.Submit? && submit.op.opId == e.requestId
    requires submit.freshId == e.freshId
    requires RestoreCommits(c, s, e) <==>
      Commits(s.layer1, submit.op, submit.mayWrite, submit.now, submit.freshId)
    ensures Exclusive(c, s.(layer1 := Step(s.layer1, submit)))
  {
    StepKeepsFreeze(s.layer1, submit);
    hide Freeze, RestoreCommits;
    if Commits(s.layer1, submit.op, submit.mayWrite, submit.now, submit.freshId) {
      forall epoch: nat | RoomFlush(c.fileId, epoch) in Step(s.layer1, submit).journal.opsById
        ensures RoomFlush(c.fileId, epoch) in s.layer1.journal.opsById
      {
        NoFlushBySubmit(s.layer1, submit, c.fileId, epoch);
      }
      hide Step, Commits;
    } else {
      ProcessCases(s.layer1, submit.op, submit.mayWrite, submit.now, submit.freshId);
      hide Process, Commits, Admission, Prepare, StoredContent;
    }
  }

  lemma {:induction false} RestoreKeepsExclusive(c: Config, s: Server, e: RoomEvent)
    requires Exclusive(c, s) && e.RestoreVersion? && Allowed(c, s, e)
    ensures Exclusive(c, RoomStep(c, s, e))
  {
    hide LoadedDoc, Freeze, InsertUpdate;
    if e.mayWrite && c.fileId in s.layer1.files.at && !s.layer1.files.at[c.fileId].deleted
        && e.version < |s.store.history|
    {
      var text := c.yjs.textOf(s.store.history[e.version].snapshot);
      var op := RestoreOp(c, s.layer1.files.at[c.fileId], text, e.requestId, e.deviceSeq);
      var submit := Submit(op, true, e.now, e.freshId);
      RestoredLayer1(c, s, e, submit);
      var layer1 := Process(s.layer1, op, true, e.now, e.freshId).0;
      assert Step(s.layer1, submit) == layer1;
      hide Process, Step, RestoreOp, Commits;
      var s1 := s.(layer1 := layer1);
      MaterializeExclusive(c, s1);
      RestoreIntoExclusive(c, Materialized(s1), Materialized(s1).room.value, e.deviceId, text);
    }
  }

  lemma RestoreIntoExclusive(c: Config, s: Server, rt: Runtime, deviceId: string, text: string)
    requires Exclusive(c, s) && s.room == Some(rt)
    ensures Exclusive(c, RestoreIntoRoom(c, s, rt, deviceId, text))
  {
    hide Freeze, InsertUpdate;
    var n, epoch, update := rt.persisted.nextSeq, rt.persisted.epoch, c.yjs.replacing(rt.doc, text);
    var edited := rt.(doc := rt.doc + update, persisted := rt.persisted.(nextSeq := n + 1));
    var store := SaveSnapshot(AppendUpdate(s.store, epoch, StoredUpdate(n, deviceId, update)), epoch, edited.doc, n);
    SaveKeeps(c, s.(store := store, issued := s.issued + [Issued(epoch, n, update)]), Snapshotted(edited, n));
  }

  lemma {:induction false} DemoteStepKeeps(c: Config, s: Server, e: RoomEvent)
    requires Exclusive(c, s) && (e.DemoteRoom? || e.IdleRoom?) && Allowed(c, s, e) && c.fileId != ""
    ensures Exclusive(c, RoomStep(c, s, e))
  {
    hide LoadedDoc, Freeze, DemoteLocked;
    MaterializeExclusive(c, s);
    var m := Materialized(s);
    if e.DemoteRoom? {
      DemoteKeepsExclusive(c, m, m.room.value, e.joined, e.now, e.freshId);
    } else if s.room.Some? {
      DemoteKeepsExclusive(c, s, s.room.value, [], e.now, e.freshId);
    }
  }

  lemma {:induction false} StepKeepsExclusive(c: Config, s: Server, e: RoomEvent)
    requires Exclusive(c, s) && Allowed(c, s, e) && c.fileId != ""
    ensures Exclusive(c, RoomStep(c, s, e))
  {
    hide Promote, HandleUpdate, Heartbeat, Leave, Disconnect, Compact, Demote, CloseIdle, CloseDeleted, RestoreHistory,
         Step, LoadedDoc, Freeze, KeepsOut;
    match e
    case PromoteRoom(deviceId, mayEdit, now) => PromoteKeepsExclusive(c, s, deviceId, mayEdit, now);
    case Edit(mayWrite, deviceId, epoch, update, now) =>
      EditKeepsExclusive(c, s, mayWrite, deviceId, epoch, update, now);
    case Beat(deviceId, epoch, now) => BeatKeepsExclusive(c, s, deviceId, epoch, now);
    case LeaveRoom(deviceId, epoch) => LeaveKeepsExclusive(c, s, deviceId, epoch);
    case DropDevice(deviceId) => LeaveKeepsExclusive(c, s, deviceId, 0);
    case CompactRoom(throughSeq) => CompactKeepsExclusive(c, s, throughSeq);
    case DemoteRoom(_, _, _, _) => DemoteStepKeeps(c, s, e);
    case IdleRoom(_, _, _) => DemoteStepKeeps(c, s, e);
    case FileDeleted => DeletedKeepsExclusive(c, s);
    case RestoreVersion(_, _, _, _, _, _, _) => RestoreKeepsExclusive(c, s, e);
    case Reload =>
    case Layer1(event) => Layer1Keeps(c, s, event);
  }

  // ---- runs ----

  ghost predicate AllowedRun(c: Config, s: Server, events: seq<RoomEvent>) {
    events != [] ==>
      && AllowedRun(c, s, events[..|events| - 1])
      && Allowed(c, RoomRun(c, s, events[..|events| - 1]), events[|events| - 1])
  }

  /** A vault in any reachable state in which the file has had no room yet. */
  ghost predicate Beginning(c: Config, s: Server) {
    && c.fileId != "" && s == Server(s.layer1, NO_ROOM, None, []) && Reachable(s.layer1)
    && forall e: nat :: RoomFlush(c.fileId, e) !in s.layer1.journal.opsById
  }

  lemma {:induction false} RunKeepsExclusive(c: Config, s: Server, events: seq<RoomEvent>)
    requires Beginning(c, s) && AllowedRun(c, s, events)
    ensures Exclusive(c, RoomRun(c, s, events))
  {
    hide RoomStep, Allowed, Reachable, Freeze;
    if events == [] {
      ReachableFreeze(s.layer1);
    } else {
      RunKeepsExclusive(c, s, events[..|events| - 1]);
      StepKeepsExclusive(c, RoomRun(c, s, events[..|events| - 1]), events[|events| - 1]);
    }
  }

  /** In every run, while the room is active the stored version of the file is the one the epoch
      began with, no conflict is pending on it, and its lease is the room's. */
  lemma {:induction false} VersionStaysWhileActive(c: Config, s: Server, events: seq<RoomEvent>)
    requires Beginning(c, s) && AllowedRun(c, s, events)
    ensures var s' := RoomRun(c, s, events);
      var r := RoomRecord(s'.store);
      r.active ==>
        && c.fileId in s'.layer1.files.at && s'.layer1.files.at[c.fileId].contentVV == r.baseVV
        && s'.layer1.files.at[c.fileId].conflictId.None? && s'.layer1.files.at[c.fileId].activeUntil == r.leaseUntil
  {
    RunKeepsExclusive(c, s, events);
    hide RoomRun, Beginning, Freeze;
  }

  /** In every run, whenever an active room is demoted its flush is acknowledged without conflict and
      Layer 1 then holds the hash of the room's text, under a version that dominates the base. */
  lemma {:induction false} DemoteFlushLands(c: Config, s: Server, events: seq<RoomEvent>, joined: seq<VersionVector>,
          now: nat, freshId: string)
    requires Beginning(c, s) && AllowedRun(c, s, events)
    requires var s' := RoomRun(c, s, events);
      RoomOf(s').persisted.active && RoomOf(s').persisted.epoch <= MAX_SAFE_INTEGER
    ensures var s' := RoomRun(c, s, events);
      var rt := RoomOf(s');
      var (layer1, r) := Process(s'.layer1, FlushOp(c, rt, joined), true, now, freshId);
      var text := c.yjs.textOf(rt.doc);
      && r.Ack? && r.conflictId.None?
      && c.fileId in layer1.files.at && layer1.files.at[c.fileId].contentHash == Some(Digest(text))
      && Dominates(layer1.files.at[c.fileId].contentVV, rt.persisted.baseVV)
      && DemoteLocked(c, s', rt, joined, now, freshId).1 == RoomClosed(Some(Digest(text)))
  {
    RunKeepsExclusive(c, s, events);
    var s' := RoomRun(c, s, events);
    hide RoomRun, Freeze, AllowedRun, LoadedDoc;
    FlushIsAccepted(c, s'.layer1, RoomOf(s'), joined, now, freshId);
    hide Process, JoinAll, ByteLength, Dominates, CloseFlushed;
  }
}
