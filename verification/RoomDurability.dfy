/** Durability of rooms: reading a room back from its store gives the document it held in memory, and
    every update that was given a number stays in it, unless a new epoch starts from a snapshot that
    does not cover what was stored after it. */
module RoomDurability {
  import opened Options
  import opened VersionVectors
  import opened Vault
  import opened VaultRuns
  import opened Rooms
  import opened RoomRuns

  // ---- one room's record, updates and document ----

  ghost predicate RoomSound(r: PersistedRoom, list: seq<StoredUpdate>, doc: Doc) {
    && r.nextSeq >= 1 && r.compactedThroughSeq < r.nextSeq && (r.active ==> r.seeded) && (r.seeded ==> r.snapshot.Some?)
    && DocOf(r, list) == doc
    && forall u :: u in list ==> u.update <= doc && u.n < r.nextSeq
  }

  lemma {:induction false} AfterItems(list: seq<StoredUpdate>, n: int)
    ensures forall u :: u in UpdatesAfter(list, n) <==> u in list && u.n > n
  {
    if list != [] {
      AfterItems(list[..|list| - 1], n);
      assert list == list[..|list| - 1] + [list[|list| - 1]];
    }
  }

  lemma {:induction false} MergedWithin(list: seq<StoredUpdate>, doc: Doc)
    requires forall u :: u in list ==> u.update <= doc
    ensures Merged(list, doc) == doc
  {
    if list != [] { MergedWithin(list[..|list| - 1], doc); }
  }

  lemma AppendsAtEnd(list: seq<StoredUpdate>, u: StoredUpdate)
    requires forall x :: x in list ==> x.n < u.n
    ensures InsertUpdate(list, u) == list + [u]
  {
    if list != [] { assert list[|list| - 1] in list; }
  }

  lemma DocAppend(r: PersistedRoom, list: seq<StoredUpdate>, u: StoredUpdate)
    requires r.seeded && u.n > r.compactedThroughSeq
    ensures DocOf(r, list + [u]) == DocOf(r, list) + u.update
  {
    assert (list + [u])[..|list|] == list;
    var kept := UpdatesAfter(list, r.compactedThroughSeq);
    assert (kept + [u])[..|kept|] == kept;
  }

  /** One more update, not yet in a snapshot. */
  lemma EditedSound(r: PersistedRoom, list: seq<StoredUpdate>, doc: Doc, u: StoredUpdate, r': PersistedRoom)
    requires RoomSound(r, list, doc) && r.seeded && u.n == r.nextSeq
    requires r'.nextSeq == r.nextSeq + 1 && r'.compactedThroughSeq == r.compactedThroughSeq && r'.snapshot == r.snapshot
    requires r'.seeded
    ensures RoomSound(r', list + [u], doc + u.update)
  {
    DocAppend(r', list, u);
    assert DocOf(r', list) == DocOf(r, list);
    hide DocOf;
  }

  /** A snapshot of the whole document, through any number already handed out. */
  lemma SnapshotSound(r: PersistedRoom, list: seq<StoredUpdate>, doc: Doc)
    requires r.nextSeq >= 1 && r.compactedThroughSeq < r.nextSeq && (r.active ==> r.seeded) && r.snapshot == Some(doc)
    requires forall u :: u in list ==> u.update <= doc && u.n < r.nextSeq
    ensures RoomSound(r, list, doc)
  {
    AfterItems(list, r.compactedThroughSeq);
    MergedWithin(if r.seeded then UpdatesAfter(list, r.compactedThroughSeq) else [], doc);
  }

  /** Owner, lease and activity do not bear on the document. */
  lemma LeaseSound(r: PersistedRoom, r': PersistedRoom, list: seq<StoredUpdate>, doc: Doc)
    requires RoomSound(r, list, doc) && (r'.active ==> r'.seeded)
    requires r'.nextSeq == r.nextSeq && r'.compactedThroughSeq == r.compactedThroughSeq && r'.snapshot == r.snapshot
    requires r'.seeded == r.seeded
    ensures RoomSound(r', list, doc)
  {
  }

  // ---- the server ----

  ghost predicate NothingLater(updates: map<nat, seq<StoredUpdate>>, epoch: nat) {
    forall e :: e in updates && e > epoch ==> updates[e] == []
  }

  ghost predicate InSync(store: RoomStore, room: Option<Runtime>) {
    room.Some? ==>
      && room.value.persisted == RoomRecord(store) && room.value.doc == LoadedDoc(store)
      && (room.value.phase.Closed? <==> !room.value.persisted.active)
  }

  ghost predicate Durable(s: Server) {
    var r := RoomRecord(s.store);
    && RoomSound(r, UpdatesOf(s.store, r.epoch), LoadedDoc(s.store)) && NothingLater(s.store.updates, r.epoch)
    && InSync(s.store, s.room)
  }

  /** Every update that was given a number is in the document. */
  ghost predicate AllKept(issued: seq<Issued>, doc: Doc) {
    forall i :: 0 <= i < |issued| ==> issued[i].update <= doc
  }

  /** The document only grows, and every number newly handed out stands for an update in it. */
  ghost predicate Carries(issued: seq<Issued>, doc: Doc, issued': seq<Issued>, doc': Doc) {
    && doc <= doc' && issued <= issued'
    && forall i :: |issued| <= i < |issued'| ==> issued'[i].update <= doc'
  }

  /** The snapshot alone gives the whole document. */
  ghost predicate Whole(store: RoomStore) {
    RoomRecord(store).snapshot.GetOr({}) == LoadedDoc(store)
  }

  ghost predicate RestsWhole(s: Server) {
    !RoomRecord(s.store).active ==> Whole(s.store)
  }

  /** A step that loses nothing and leaves no closed room behind its snapshot. */
  ghost predicate Advances(s: Server, s': Server) {
    && Durable(s') && Carries(s.issued, LoadedDoc(s.store), s'.issued, LoadedDoc(s'.store))
    && (RestsWhole(s) ==> RestsWhole(s'))
  }

  lemma CarriesKeeps(issued: seq<Issued>, doc: Doc, issued': seq<Issued>, doc': Doc)
    requires AllKept(issued, doc) && Carries(issued, doc, issued', doc')
    ensures AllKept(issued', doc')
  {
    forall i | 0 <= i < |issued'| ensures issued'[i].update <= doc' {
      if i < |issued| { assert issued'[i] == issued[i]; }
    }
  }

  // ---- steps ----

  lemma MaterializeKeeps(s: Server)
    requires Durable(s)
    ensures var m := Materialized(s);
      Durable(m) && m.room == Some(RoomOf(s)) && m.store == s.store && m.issued == s.issued && m.layer1 == s.layer1
  {
    hide RoomSound;
  }

  /** What Durable says about the room in memory. */
  lemma InMemory(s: Server)
    requires Durable(s) && s.room.Some?
    ensures var rt := s.room.value;
      && rt.persisted == RoomRecord(s.store) && rt.doc == LoadedDoc(s.store)
      && (rt.phase.Closed? <==> !rt.persisted.active)
      && RoomSound(rt.persisted, UpdatesOf(s.store, rt.persisted.epoch), rt.doc)
      && NothingLater(s.store.updates, rt.persisted.epoch)
  {
    hide RoomSound, NothingLater, LoadedDoc;
  }

  /** The end of every operation on a room: what was saved is what is in memory. */
  lemma SavedIsDurable(c: Config, s: Server, rt: Runtime, list: seq<StoredUpdate>)
    requires RoomSound(rt.persisted, list, rt.doc) && UpdatesOf(s.store, rt.persisted.epoch) == list
    requires NothingLater(s.store.updates, rt.persisted.epoch)
    requires rt.phase.Closed? <==> !rt.persisted.active
    ensures var s' := SaveRuntime(c, s, rt);
      && Durable(s') && LoadedDoc(s'.store) == rt.doc && RoomRecord(s'.store) == rt.persisted && s'.issued == s.issued
  {
    hide NothingLater;
  }

  lemma StillAdvances(s: Server, s': Server)
    requires Durable(s') && LoadedDoc(s'.store) == LoadedDoc(s.store) && s'.issued == s.issued
    requires RestsWhole(s) ==>
      RoomRecord(s'.store).active || RoomRecord(s'.store).snapshot.GetOr({}) == LoadedDoc(s'.store)
    ensures Advances(s, s')
  {
  }

  lemma OneMoreAdvances(s: Server, s': Server, i: Issued)
    requires Durable(s') && LoadedDoc(s'.store) == LoadedDoc(s.store) + i.update && s'.issued == s.issued + [i]
    requires RoomRecord(s'.store).active || RoomRecord(s'.store).snapshot == Some(LoadedDoc(s'.store))
    ensures Advances(s, s')
  {
  }

  lemma AdvancesFrom(m: Server, s: Server, s': Server)
    requires m.store == s.store && m.issued == s.issued && Advances(m, s')
    ensures Advances(s, s')
  {
  }

  lemma AppendKeepsLater(store: RoomStore, epoch: nat, u: StoredUpdate)
    requires NothingLater(store.updates, epoch) && forall x :: x in UpdatesOf(store, epoch) ==> x.n < u.n
    ensures var store' := AppendUpdate(store, epoch, u);
      && NothingLater(store'.updates, epoch) && UpdatesOf(store', epoch) == UpdatesOf(store, epoch) + [u]
      && store'.room == store.room
  {
    AppendsAtEnd(UpdatesOf(store, epoch), u);
  }

  lemma EditedIsSound(c: Config, rt: Runtime, list: seq<StoredUpdate>, deviceId: string, update: Doc, now: nat)
    requires RoomSound(rt.persisted, list, rt.doc) && rt.persisted.active
    ensures var (rt', n) := (Edited(c, rt, deviceId, update, now), rt.persisted.nextSeq);
      && RoomSound(rt'.persisted, list + [StoredUpdate(n, deviceId, update)], rt'.doc)
      && RoomSound(Snapshotted(rt', n).persisted, list + [StoredUpdate(n, deviceId, update)], rt'.doc)
  {
    var rt', u := Edited(c, rt, deviceId, update, now), StoredUpdate(rt.persisted.nextSeq, deviceId, update);
    EditedSound(rt.persisted, list, rt.doc, u, rt'.persisted);
    SnapshotSound(Snapshotted(rt', u.n).persisted, list + [u], rt'.doc);
  }

  lemma SoundNumbers(r: PersistedRoom, list: seq<StoredUpdate>, doc: Doc)
    requires RoomSound(r, list, doc)
    ensures forall x :: x in list ==> x.n < r.nextSeq
  {
  }

  lemma {:induction false} AcceptKeeps(c: Config, s: Server, rt: Runtime, deviceId: string, update: Doc, now: nat)
    requires Durable(s) && rt.persisted == RoomRecord(s.store) && rt.doc == LoadedDoc(s.store) && rt.persisted.active
    requires !rt.phase.Closed?
    ensures Advances(s, Accept(c, s, rt, deviceId, update, now))
    ensures LoadedDoc(Accept(c, s, rt, deviceId, update, now).store) == rt.doc + update
  {
    hide RoomSound, NothingLater, Cadence, InsertUpdate, LoadedDoc, InSync, Advances;
    var list, n, epoch := UpdatesOf(s.store, rt.persisted.epoch), rt.persisted.nextSeq, rt.persisted.epoch;
    var u, edited := StoredUpdate(n, deviceId, update), Edited(c, rt, deviceId, update, now);
    SoundNumbers(rt.persisted, list, rt.doc);
    AppendKeepsLater(s.store, epoch, u);
    EditedIsSound(c, rt, list, deviceId, update, now);
    var stored := s.(store := AppendUpdate(s.store, epoch, u), issued := s.issued + [Issued(epoch, n, update)]);
    hide AppendUpdate, Durable;
    SavedIsDurable(c, stored, edited, list + [u]);
    SavedIsDurable(c, stored.(store := SaveSnapshot(stored.store, epoch, edited.doc, n)), Snapshotted(edited, n),
                   list + [u]);
    OneMoreAdvances(s, Accept(c, s, rt, deviceId, update, now), Issued(epoch, n, update));
  }

  lemma EditKeeps(c: Config, s: Server, mayWrite: bool, deviceId: string, epoch: nat, update: Doc, now: nat)
    requires Durable(s)
    ensures Advances(s, HandleUpdate(c, s, mayWrite, deviceId, epoch, update, now).0)
  {
    MaterializeKeeps(s);
    var m := Materialized(s);
    InMemory(m);
    var rt := m.room.value;
    if mayWrite && !IsStale(rt, epoch) && deviceId in rt.participants {
      var limited := rt.(participants := rt.participants[deviceId := Limited(c, rt.participants[deviceId], now)]);
      AcceptKeeps(c, m, limited, deviceId, update, now);
      AdvancesFrom(m, s, Accept(c, m, limited, deviceId, update, now));
      MembersKeep(m, limited);
      StillAdvances(s, m.(room := Some(limited)));
    }
    StillAdvances(s, m);
    StillAdvances(s, s);
    hide Durable, Advances, LoadedDoc, Accept;
  }

  /** Changes of lease, participants and phase. */
  lemma LeaseKeeps(c: Config, s: Server, rt: Runtime)
    requires Durable(s) && rt.doc == LoadedDoc(s.store)
    requires var (r, p) := (RoomRecord(s.store), rt.persisted);
      p == r.(leaseOwner := p.leaseOwner, leaseUntil := p.leaseUntil, active := p.active)
    requires rt.phase.Closed? <==> !rt.persisted.active
    requires rt.persisted.active ==> RoomRecord(s.store).active
    ensures var s' := SaveRuntime(c, s, rt);
      && Durable(s') && LoadedDoc(s'.store) == LoadedDoc(s.store) && RoomRecord(s'.store) == rt.persisted
      && (rt.persisted.active ==> Advances(s, s'))
  {
    var r := RoomRecord(s.store);
    var list := UpdatesOf(s.store, r.epoch);
    LeaseSound(r, rt.persisted, list, rt.doc);
    hide RoomSound, NothingLater, LoadedDoc;
    SavedIsDurable(c, s, rt, list);
    if rt.persisted.active { StillAdvances(s, SaveRuntime(c, s, rt)); }
  }

  lemma BeatKeeps(c: Config, s: Server, deviceId: string, epoch: nat, now: nat)
    requires Durable(s)
    ensures Advances(s, Heartbeat(c, s, deviceId, epoch, now).0)
  {
    MaterializeKeeps(s);
    var m := Materialized(s);
    InMemory(m);
    var rt := m.room.value;
    StillAdvances(s, m);
    if !IsStale(rt, epoch) && deviceId in rt.participants {
      var beaten := rt.(persisted := rt.persisted.(leaseUntil := Some(now + c.leaseMs)));
      LeaseKeeps(c, m, beaten);
      AdvancesFrom(m, s, SaveRuntime(c, m, beaten));
    }
    hide Durable, Advances, SaveRuntime, LoadedDoc;
  }

  lemma MembersKeep(s: Server, rt: Runtime)
    requires Durable(s) && s.room.Some? && rt == s.room.value.(participants := rt.participants, phase := rt.phase)
    requires rt.phase.Closed? <==> !rt.persisted.active
    ensures Durable(s.(room := Some(rt)))
  {
    hide RoomSound, NothingLater, LoadedDoc;
  }

  lemma LeaveKeeps(s: Server, deviceId: string, epoch: nat)
    requires Durable(s)
    ensures Advances(s, Leave(s, deviceId, epoch).0) && Advances(s, Disconnect(s, deviceId))
  {
    MaterializeKeeps(s);
    InMemory(Materialized(s));
    var left := Emptied(RoomOf(s).(participants := RoomOf(s).participants - {deviceId}));
    MembersKeep(Materialized(s), left);
    if s.room.Some? { MembersKeep(s, left); }
    StillAdvances(s, Materialized(s));
    StillAdvances(s, Leave(s, deviceId, epoch).0);
    StillAdvances(s, Disconnect(s, deviceId));
    hide Durable, Advances, LoadedDoc;
  }

  lemma OutsideKeeps(s: Server, layer1: State)
    requires Durable(s)
    ensures Advances(s, s.(layer1 := layer1)) && Advances(s, s.(room := None))
  {
    StillAdvances(s, s.(layer1 := layer1));
    StillAdvances(s, s.(room := None));
    hide RoomSound, NothingLater, LoadedDoc, Advances;
  }

  /** Compaction through a number already handed out. */
  lemma CompactKeeps(c: Config, s: Server, throughSeq: Option<int>)
    requires Durable(s) && (throughSeq.Some? ==> throughSeq.value < RoomRecord(s.store).nextSeq)
    ensures Advances(s, Compact(c, s, throughSeq))
  {
    hide Durable, LoadedDoc, UpdatesAfter, DocOf, Advances;
    MaterializeKeeps(s);
    var m, rt := Materialized(s), RoomOf(s);
    InMemory(m);
    var epoch := rt.persisted.epoch;
    var n, list := throughSeq.GetOr(rt.persisted.nextSeq - 1), UpdatesOf(m.store, epoch);
    AfterItems(list, n);
    SnapshotSound(Snapshotted(rt, n).persisted, UpdatesAfter(list, n), rt.doc);
    hide RoomSound;
    var store := DeleteThrough(SaveSnapshot(m.store, epoch, rt.doc, n), epoch, n);
    assert UpdatesOf(store, epoch) == UpdatesAfter(list, n) && NothingLater(store.updates, epoch);
    hide NothingLater, SaveSnapshot, DeleteThrough;
    SavedIsDurable(c, m.(store := store), Snapshotted(rt, n), UpdatesAfter(list, n));
    StillAdvances(s, Compact(c, s, throughSeq));
  }

  lemma EnterKeeps(c: Config, s: Server, rt: Runtime, file: StoredFile, deviceId: string, mayEdit: bool, now: nat)
    requires Durable(s) && s.room == Some(rt) && rt.persisted.active
    ensures Advances(s, Enter(c, s, rt, file, deviceId, mayEdit, now))
  {
    InMemory(s);
    hide Durable, LoadedDoc, SaveRuntime, Advances;
    var participants := rt.participants[deviceId := Participant(file.contentVV, mayEdit, now, 0)];
    LeaseKeeps(c, s, rt.(persisted := Leased(c, rt.persisted, deviceId, now), phase := Active,
                         participants := participants));
  }

  lemma {:induction false} MergedContains(list: seq<StoredUpdate>, doc: Doc)
    ensures doc <= Merged(list, doc) && forall u :: u in list ==> u.update <= Merged(list, doc)
  {
    if list != [] { MergedContains(list[..|list| - 1], doc); }
  }

  lemma SnapshotWithin(store: RoomStore)
    ensures RoomRecord(store).snapshot.GetOr({}) <= LoadedDoc(store)
  {
    var r := RoomRecord(store);
    MergedContains(if r.seeded then UpdatesAfter(UpdatesOf(store, r.epoch), r.compactedThroughSeq) else [],
                   r.snapshot.GetOr({}));
  }

  /** A new epoch starts from the snapshot, and carries the document over exactly when that is all of it. */
  lemma ActivateKeeps(c: Config, s: Server, rt: Runtime, file: StoredFile, deviceId: string, mayEdit: bool, now: nat)
    requires Durable(s) && s.room == Some(rt) && !rt.persisted.active
    ensures var a := Activate(c, s, rt, file, deviceId, now);
      a.room.Some? && var s' := Enter(c, a, a.room.value, file, deviceId, mayEdit, now);
        && Durable(s') && RoomRecord(s'.store).active && s'.issued == s.issued
        && (LoadedDoc(s.store) <= LoadedDoc(s'.store) <==> Whole(s.store))
        && RoomRecord(s.store).snapshot.OrElse(Some(LoadedDoc(s'.store))) == Some(LoadedDoc(s'.store))
  {
    InMemory(s);
    SnapshotWithin(s.store);
    NothingYet(s.store, rt);
    hide RoomSound, SeedDoc, DocOf, Durable, LoadedDoc;
    var a := Activate(c, s, rt, file, deviceId, now);
    var rt' := a.room.value;
    assert UpdatesOf(a.store, rt'.persisted.epoch) == [] && NothingLater(a.store.updates, rt'.persisted.epoch);
    hide NothingLater, UpdatesOf;
    var participants := rt'.participants[deviceId := Participant(file.contentVV, mayEdit, now, 0)];
    var entered := rt'.(persisted := Leased(c, rt'.persisted, deviceId, now), phase := Active,
                        participants := participants);
    SnapshotSound(entered.persisted, [], rt'.doc);
    SavedIsDurable(c, a, entered, []);
  }

  lemma NothingYet(store: RoomStore, rt: Runtime)
    requires rt.persisted == RoomRecord(store) && RoomSound(rt.persisted, UpdatesOf(store, rt.persisted.epoch), rt.doc)
    ensures rt.persisted.snapshot.None? ==> LoadedDoc(store) == {}
  {
  }

  /** The event starts a new epoch: the room is not active, the file is live and not encrypted. */
  predicate Reopens(c: Config, s: Server, e: RoomEvent) {
    && e.PromoteRoom? && e.mayEdit && !RoomRecord(s.store).active && c.fileId in s.layer1.files.at
    && !s.layer1.files.at[c.fileId].deleted && !s.layer1.files.at[c.fileId].encrypted
  }

  lemma {:induction false} PromoteKeeps(c: Config, s: Server, e: RoomEvent)
    requires Durable(s) && e.PromoteRoom?
    ensures var s' := RoomStep(c, s, e);
      && Durable(s') && (Advances(s, s') <==> (Reopens(c, s, e) ==> Whole(s.store)))
      && (RestsWhole(s) ==> RestsWhole(s'))
      && (Reopens(c, s, e) ==>
            RoomRecord(s.store).snapshot.OrElse(Some(LoadedDoc(s'.store))) == Some(LoadedDoc(s'.store)))
  {
    hide Activate, Enter, Loaded, LoadedDoc;
    MaterializeKeeps(s);
    var m := Materialized(s);
    InMemory(m);
    var rt := m.room.value;
    StillAdvances(s, m);
    StillAdvances(s, s);
    hide Durable;
    if e.mayEdit && c.fileId in m.layer1.files.at && !m.layer1.files.at[c.fileId].deleted
       && !m.layer1.files.at[c.fileId].encrypted
    {
      var file := m.layer1.files.at[c.fileId];
      if rt.persisted.active {
        EnterKeeps(c, m, rt, file, e.deviceId, e.mayEdit, e.now);
        AdvancesFrom(m, s, Enter(c, m, rt, file, e.deviceId, e.mayEdit, e.now));
      } else {
        ActivateKeeps(c, m, rt, file, e.deviceId, e.mayEdit, e.now);
      }
    }
  }

  lemma FlushedKeeps(c: Config, s: Server, rt: Runtime)
    requires Durable(s) && s.room == Some(rt)
    ensures Advances(s, CloseFlushed(c, s, rt))
  {
    hide Durable, LoadedDoc, NothingLater, DocOf, InsertUpdate, Advances;
    InMemory(s);
    var n, list := rt.persisted.nextSeq - 1, UpdatesOf(s.store, rt.persisted.epoch);
    SnapshotSound(Ended(Snapshotted(rt, n)).persisted, list, rt.doc);
    hide RoomSound;
    SavedIsDurable(c, s.(store := SaveSnapshot(s.store, rt.persisted.epoch, rt.doc, n)),
                   Ended(Snapshotted(rt, n)), list);
    StillAdvances(s, CloseFlushed(c, s, rt));
  }

  lemma DemoteLockedKeeps(c: Config, s: Server, rt: Runtime, joined: seq<VersionVector>, now: nat, freshId: string)
    requires Durable(s) && s.room == Some(rt)
    ensures Advances(s, DemoteLocked(c, s, rt, joined, now, freshId).0)
  {
    hide Durable, Process, CloseFlushed, FlushOp, Advances;
    OutsideKeeps(s, s.layer1);
    if rt.persisted.active {
      var layer1 := Process(s.layer1, FlushOp(c, rt, joined), true, now, freshId).0;
      OutsideKeeps(s, layer1);
      AdvancesIsDurable(s, s.(layer1 := layer1));
      FlushedKeeps(c, s.(layer1 := layer1), rt);
      AdvancesFrom(s.(layer1 := layer1), s, CloseFlushed(c, s.(layer1 := layer1), rt));
    }
  }

  lemma AdvancesIsDurable(s: Server, s': Server)
    requires Advances(s, s')
    ensures Durable(s')
  {
  }

  lemma DemoteKeeps(c: Config, s: Server, expected: Option<nat>, joined: seq<VersionVector>, now: nat, freshId: string)
    requires Durable(s)
    ensures Advances(s, Demote(c, s, expected, joined, now, freshId).0)
  {
    hide Durable, DemoteLocked, Loaded, Advances, LoadedDoc;
    MaterializeKeeps(s);
    var m := Materialized(s);
    StillMaterialized(s);
    DemoteLockedKeeps(c, m, m.room.value, joined, now, freshId);
    AdvancesFrom(m, s, DemoteLocked(c, m, m.room.value, joined, now, freshId).0);
  }

  lemma StillMaterialized(s: Server)
    requires Durable(s)
    ensures Advances(s, Materialized(s))
  {
    MaterializeKeeps(s);
    StillAdvances(s, Materialized(s));
  }

  lemma IdleKeeps(c: Config, s: Server, expiredOnly: bool, now: nat, freshId: string)
    requires Durable(s)
    ensures Advances(s, CloseIdle(c, s, expiredOnly, now, freshId))
  {
    hide Durable, DemoteLocked, Advances;
    OutsideKeeps(s, s.layer1);
    if s.room.Some? { DemoteLockedKeeps(c, s, s.room.value, [], now, freshId); }
  }

  /** Closing for a deletion changes no document, but takes no last snapshot either. */
  lemma DeletedKeeps(c: Config, s: Server)
    requires Durable(s)
    ensures var s' := CloseDeleted(c, s);
      && Durable(s') && Carries(s.issued, LoadedDoc(s.store), s'.issued, LoadedDoc(s'.store))
      && (Whole(s'.store) <==> Whole(s.store)) && !RoomRecord(s'.store).active
  {
    MaterializeKeeps(s);
    var m := Materialized(s);
    InMemory(m);
    hide Durable, LoadedDoc;
    if m.room.value.persisted.active { LeaseKeeps(c, m, Ended(m.room.value)); }
  }

  lemma RestoreIntoKeeps(c: Config, s: Server, rt: Runtime, deviceId: string, text: string)
    requires Durable(s) && s.room == Some(rt)
    ensures Advances(s, RestoreIntoRoom(c, s, rt, deviceId, text))
  {
    hide NothingLater, InsertUpdate, DocOf, Durable, Advances, LoadedDoc;
    InMemory(s);
    var list, n, epoch := UpdatesOf(s.store, rt.persisted.epoch), rt.persisted.nextSeq, rt.persisted.epoch;
    var update := c.yjs.replacing(rt.doc, text);
    var u := StoredUpdate(n, deviceId, update);
    var edited := rt.(doc := rt.doc + update, persisted := rt.persisted.(nextSeq := n + 1));
    SnapshotSound(Snapshotted(edited, n).persisted, list + [u], edited.doc);
    AppendKeepsLater(s.store, epoch, u);
    hide RoomSound;
    var store := SaveSnapshot(AppendUpdate(s.store, epoch, u), epoch, edited.doc, n);
    hide AppendUpdate;
    SavedIsDurable(c, s.(store := store, issued := s.issued + [Issued(epoch, n, update)]), Snapshotted(edited, n),
                   list + [u]);
    OneMoreAdvances(s, RestoreIntoRoom(c, s, rt, deviceId, text), Issued(epoch, n, update));
  }

  lemma {:induction false} RestoreKeeps(c: Config, s: Server, e: RoomEvent)
    requires Durable(s) && e.RestoreVersion?
    ensures Advances(s, RoomStep(c, s, e))
  {
    hide Durable, Process, RestoreIntoRoom, RestoreOp, Loaded, Advances, LoadedDoc;
    OutsideKeeps(s, s.layer1);
    if e.mayWrite && c.fileId in s.layer1.files.at && !s.layer1.files.at[c.fileId].deleted
        && e.version < |s.store.history|
    {
      var text := c.yjs.textOf(s.store.history[e.version].snapshot);
      var op := RestoreOp(c, s.layer1.files.at[c.fileId], text, e.requestId, e.deviceSeq);
      var s1 := s.(layer1 := Process(s.layer1, op, true, e.now, e.freshId).0);
      OutsideKeeps(s, s1.layer1);
      AdvancesIsDurable(s, s1);
      MaterializeKeeps(s1);
      var m := Materialized(s1);
      RestoreIntoKeeps(c, m, m.room.value, e.deviceId, text);
      AdvancesFrom(m, s, RestoreIntoRoom(c, m, m.room.value, e.deviceId, text));
    }
  }

  /** Compaction reaches no further than the numbers handed out. */
  predicate Bounded(s: Server, e: RoomEvent) {
    e.CompactRoom? && e.throughSeq.Some? ==> e.throughSeq.value < RoomRecord(s.store).nextSeq
  }

  /** Every operation of a room keeps store and memory in agreement. All but one carry the document
      and the numbered updates over; starting a new epoch does exactly when the stored snapshot is the
      whole document. Only closing for a deletion leaves a closed room behind its snapshot. */
  lemma RoomStepKeeps(c: Config, s: Server, e: RoomEvent)
    requires Durable(s) && Bounded(s, e)
    ensures var s' := RoomStep(c, s, e);
      && Durable(s')
      && (Carries(s.issued, LoadedDoc(s.store), s'.issued, LoadedDoc(s'.store)) <==>
            (Reopens(c, s, e) ==> Whole(s.store)))
      && (RestsWhole(s) && (e.FileDeleted? ==> Whole(s.store)) ==> RestsWhole(s'))
  {
    hide Durable, Promote, HandleUpdate, Heartbeat, Leave, Disconnect, Compact, Demote, CloseIdle, CloseDeleted,
         RestoreHistory, Step, LoadedDoc, Carries;
    match e
    case PromoteRoom(_, _, _) => PromoteKeeps(c, s, e);
    case Edit(mayWrite, deviceId, epoch, update, now) => EditKeeps(c, s, mayWrite, deviceId, epoch, update, now);
    case Beat(deviceId, epoch, now) => BeatKeeps(c, s, deviceId, epoch, now);
    case LeaveRoom(deviceId, epoch) => LeaveKeeps(s, deviceId, epoch);
    case DropDevice(deviceId) => LeaveKeeps(s, deviceId, 0);
    case CompactRoom(throughSeq) => CompactKeeps(c, s, throughSeq);
    case DemoteRoom(expected, joined, now, freshId) => DemoteKeeps(c, s, expected, joined, now, freshId);
    case IdleRoom(expiredOnly, now, freshId) => IdleKeeps(c, s, expiredOnly, now, freshId);
    case FileDeleted => DeletedKeeps(c, s);
    case RestoreVersion(_, _, _, _, _, _, _) => RestoreKeeps(c, s, e);
    case Reload => OutsideKeeps(s, s.layer1);
    case Layer1(event) => OutsideKeeps(s, Step(s.layer1, event));
  }

  // ---- what the stored rows say about the snapshot ----

  /** Every update stored in the current epoch beyond what the snapshot covers is within it already. */
  ghost predicate Covered(store: RoomStore) {
    var r := RoomRecord(store);
    r.seeded ==>
      forall u :: u in UpdatesOf(store, r.epoch) && u.n > r.compactedThroughSeq ==> u.update <= r.snapshot.GetOr({})
  }

  lemma {:induction false} CoveredMeansWhole(store: RoomStore)
    ensures Covered(store) <==> Whole(store)
  {
    var r := RoomRecord(store);
    var list := UpdatesOf(store, r.epoch);
    AfterItems(list, r.compactedThroughSeq);
    MergedContains(UpdatesAfter(list, r.compactedThroughSeq), r.snapshot.GetOr({}));
    if r.seeded && Covered(store) { MergedWithin(UpdatesAfter(list, r.compactedThroughSeq), r.snapshot.GetOr({})); }
    hide UpdatesOf, UpdatesAfter;
  }

  // ---- runs ----

  ghost predicate BoundedRun(c: Config, s: Server, events: seq<RoomEvent>) {
    events != [] ==>
      BoundedRun(c, s, events[..|events| - 1]) && Bounded(RoomRun(c, s, events[..|events| - 1]), events[|events| - 1])
  }

  /** Whenever a new epoch starts, the stored updates are within the snapshot it starts from. */
  ghost predicate CoveredRun(c: Config, s: Server, events: seq<RoomEvent>) {
    events != [] ==>
      && CoveredRun(c, s, events[..|events| - 1])
      && var before := RoomRun(c, s, events[..|events| - 1]);
         Reopens(c, before, events[|events| - 1]) ==> Covered(before.store)
  }

  lemma StartIsDurable(layer1: State)
    ensures Durable(NoRooms(layer1)) && RestsWhole(NoRooms(layer1))
  {
  }

  lemma {:induction false} RunIsDurable(c: Config, layer1: State, events: seq<RoomEvent>)
    requires BoundedRun(c, NoRooms(layer1), events)
    ensures Durable(RoomRun(c, NoRooms(layer1), events))
  {
    StartIsDurable(layer1);
    hide Durable, Bounded, RoomStep, Carries;
    if events != [] {
      RunIsDurable(c, layer1, events[..|events| - 1]);
      RoomStepKeeps(c, RoomRun(c, NoRooms(layer1), events[..|events| - 1]), events[|events| - 1]);
    }
  }

  /** In every run whose compactions stay within the numbers handed out, reading the room back from
      its store gives the record and the document held in memory. */
  lemma {:induction false} ReloadGivesTheDocument(c: Config, layer1: State, events: seq<RoomEvent>)
    requires BoundedRun(c, NoRooms(layer1), events)
    ensures var s := RoomRun(c, NoRooms(layer1), events);
      s.room.Some? ==> Loaded(s.store).doc == s.room.value.doc && Loaded(s.store).persisted == s.room.value.persisted
  {
    RunIsDurable(c, layer1, events);
    hide RoomRun, RoomSound, NothingLater, DocOf;
  }

  // ---- the numbered updates ----

  lemma {:induction false} InsertedItems(list: seq<StoredUpdate>, u: StoredUpdate)
    ensures forall x :: x in InsertUpdate(list, u) ==> x in list || x == u
  {
    if list != [] { InsertedItems(list[..|list| - 1], u); }
  }

  /** Every update stored in the current epoch was given a number. */
  ghost predicate StoredAreIssued(s: Server) {
    forall u :: u in UpdatesOf(s.store, RoomRecord(s.store).epoch) ==>
      exists i :: 0 <= i < |s.issued| && s.issued[i].update == u.update
  }

  /** What is stored in the epoch afterwards was stored in it before, or is the update just numbered. */
  ghost predicate Stores(s: Server, s': Server) {
    && s.issued <= s'.issued
    && forall u :: u in UpdatesOf(s'.store, RoomRecord(s'.store).epoch) ==>
         || u in UpdatesOf(s.store, RoomRecord(s.store).epoch)
         || (|s'.issued| > |s.issued| && s'.issued[|s.issued|].update == u.update)
  }

  lemma StoresKeeps(s: Server, s': Server)
    requires StoredAreIssued(s) && Stores(s, s')
    ensures StoredAreIssued(s')
  {
    hide UpdatesOf;
    forall u | u in UpdatesOf(s'.store, RoomRecord(s'.store).epoch)
      ensures exists i :: 0 <= i < |s'.issued| && s'.issued[i].update == u.update
    {
      if u in UpdatesOf(s.store, RoomRecord(s.store).epoch) {
        var i :| 0 <= i < |s.issued| && s.issued[i].update == u.update;
        assert s'.issued[i] == s.issued[i];
      } else {
        assert s'.issued[|s.issued|].update == u.update;
      }
    }
  }

  lemma EditStores(c: Config, s: Server, mayWrite: bool, deviceId: string, epoch: nat, update: Doc, now: nat)
    requires Durable(s)
    ensures Stores(s, HandleUpdate(c, s, mayWrite, deviceId, epoch, update, now).0)
  {
    var r := RoomRecord(s.store);
    InsertedItems(UpdatesOf(s.store, r.epoch), StoredUpdate(r.nextSeq, deviceId, update));
    hide InsertUpdate, RoomSound, NothingLater, DocOf;
  }

  lemma CompactStores(c: Config, s: Server, throughSeq: Option<int>)
    requires Durable(s)
    ensures Stores(s, Compact(c, s, throughSeq))
  {
    var r := RoomRecord(s.store);
    AfterItems(UpdatesOf(s.store, r.epoch), throughSeq.GetOr(if r.nextSeq == 0 then 0 else r.nextSeq - 1));
    hide UpdatesAfter, RoomSound, NothingLater, DocOf;
  }

  lemma PromoteStores(c: Config, s: Server, deviceId: string, mayEdit: bool, now: nat)
    requires Durable(s)
    ensures Stores(s, Promote(c, s, deviceId, mayEdit, now).0)
  {
    hide DocOf, RoomSound, SeedDoc;
  }

  lemma RestoreIntoStores(c: Config, s: Server, rt: Runtime, deviceId: string, text: string)
    requires rt.persisted == RoomRecord(s.store)
    ensures Stores(s, RestoreIntoRoom(c, s, rt, deviceId, text))
  {
    var u := StoredUpdate(rt.persisted.nextSeq, deviceId, c.yjs.replacing(rt.doc, text));
    InsertedItems(UpdatesOf(s.store, rt.persisted.epoch), u);
    hide InsertUpdate;
  }

  lemma RestoreStores(c: Config, s: Server, e: RoomEvent)
    requires Durable(s) && e.RestoreVersion?
    ensures Stores(s, RoomStep(c, s, e))
  {
    hide Process, RestoreIntoRoom, RestoreOp, RoomSound, NothingLater, LoadedDoc;
    if e.mayWrite && c.fileId in s.layer1.files.at && !s.layer1.files.at[c.fileId].deleted
       && e.version < |s.store.history|
    {
      var text := c.yjs.textOf(s.store.history[e.version].snapshot);
      var op := RestoreOp(c, s.layer1.files.at[c.fileId], text, e.requestId, e.deviceSeq);
      var m := Materialized(s.(layer1 := Process(s.layer1, op, true, e.now, e.freshId).0));
      RestoreIntoStores(c, m, m.room.value, e.deviceId, text);
    }
  }

  lemma SameStores(s: Server, s': Server)
    requires s'.store.updates == s.store.updates && RoomRecord(s'.store).epoch == RoomRecord(s.store).epoch
    requires s'.issued == s.issued
    ensures Stores(s, s')
  {
  }

  /** The other events store and number nothing. */
  lemma OthersStore(c: Config, s: Server, e: RoomEvent)
    requires Durable(s) && !e.Edit? && !e.CompactRoom? && !e.PromoteRoom? && !e.RestoreVersion?
    ensures Stores(s, RoomStep(c, s, e))
  {
    hide Process, Step, DocOf, RoomSound, NothingLater, FlushOp, Stores, UpdatesOf, Compact, Promote, HandleUpdate,
         RestoreHistory;
    SameStores(s, RoomStep(c, s, e));
  }

  lemma StepStores(c: Config, s: Server, e: RoomEvent)
    requires Durable(s)
    ensures Stores(s, RoomStep(c, s, e))
  {
    hide Durable, Stores, HandleUpdate, Compact, Promote, RestoreHistory;
    match e
    case PromoteRoom(deviceId, mayEdit, now) => PromoteStores(c, s, deviceId, mayEdit, now);
    case Edit(mayWrite, deviceId, epoch, update, now) => EditStores(c, s, mayWrite, deviceId, epoch, update, now);
    case CompactRoom(throughSeq) => CompactStores(c, s, throughSeq);
    case RestoreVersion(_, _, _, _, _, _, _) => RestoreStores(c, s, e);
    case _ => OthersStore(c, s, e);
  }

  lemma {:induction false} RunKeepsStored(c: Config, layer1: State, events: seq<RoomEvent>)
    requires BoundedRun(c, NoRooms(layer1), events)
    ensures StoredAreIssued(RoomRun(c, NoRooms(layer1), events))
  {
    hide Durable, Bounded, RoomStep;
    if events != [] {
      RunKeepsStored(c, layer1, events[..|events| - 1]);
      RunIsDurable(c, layer1, events[..|events| - 1]);
      var before := RoomRun(c, NoRooms(layer1), events[..|events| - 1]);
      hide StoredAreIssued, Stores;
      StepStores(c, before, events[|events| - 1]);
      StoresKeeps(before, RoomStep(c, before, events[|events| - 1]));
    }
  }

  /** A new epoch that still has all numbered updates started from a snapshot that covers the stored ones. */
  lemma ReopenedKeepsOnlyCovered(c: Config, s: Server, e: RoomEvent)
    requires Durable(s) && StoredAreIssued(s) && Reopens(c, s, e)
    requires AllKept(RoomStep(c, s, e).issued, LoadedDoc(RoomStep(c, s, e).store))
    ensures Covered(s.store)
  {
    StepStores(c, s, e);
    PromoteKeeps(c, s, e);
    RecordSound(s);
    hide Durable, RoomStep, LoadedDoc, UpdatesOf, Advances, RestsWhole;
    var s' := RoomStep(c, s, e);
    forall u | u in UpdatesOf(s.store, RoomRecord(s.store).epoch) ensures u.update <= LoadedDoc(s'.store) {
      var i :| 0 <= i < |s.issued| && s.issued[i].update == u.update;
      assert s'.issued[i] == s.issued[i];
    }
  }

  lemma RecordSound(s: Server)
    requires Durable(s)
    ensures RoomRecord(s.store).seeded ==> RoomRecord(s.store).snapshot.Some?
  {
  }

  /** At every moment of the run every update that was given a number is in the document. */
  ghost predicate KeptThroughout(c: Config, s: Server, events: seq<RoomEvent>) {
    && (events != [] ==> KeptThroughout(c, s, events[..|events| - 1]))
    && var now := RoomRun(c, s, events);
         forall i :: 0 <= i < |now.issued| ==> now.issued[i].update <= LoadedDoc(now.store)
  }

  /** In every run whose compactions stay within the numbers handed out, no numbered update is ever
      missing from the document exactly if no new epoch starts from a snapshot that leaves out an
      update stored in the epoch before. */
  lemma {:induction false} NumberedUpdatesAreKept(c: Config, layer1: State, events: seq<RoomEvent>)
    requires BoundedRun(c, NoRooms(layer1), events)
    ensures KeptThroughout(c, NoRooms(layer1), events) <==> CoveredRun(c, NoRooms(layer1), events)
  {
    hide Durable, Bounded, RoomStep, Carries, Covered, LoadedDoc, Reopens, StoredAreIssued, Whole, RestsWhole;
    if events != [] {
      var e, before := events[|events| - 1], RoomRun(c, NoRooms(layer1), events[..|events| - 1]);
      NumberedUpdatesAreKept(c, layer1, events[..|events| - 1]);
      RunIsDurable(c, layer1, events[..|events| - 1]);
      RunKeepsStored(c, layer1, events[..|events| - 1]);
      RoomStepKeeps(c, before, e);
      CoveredMeansWhole(before.store);
      var s := RoomStep(c, before, e);
      assert RoomRun(c, NoRooms(layer1), events) == s;
      if KeptThroughout(c, NoRooms(layer1), events[..|events| - 1]) {
        if Reopens(c, before, e) && AllKept(s.issued, LoadedDoc(s.store)) {
          ReopenedKeepsOnlyCovered(c, before, e);
        }
        if Reopens(c, before, e) ==> Covered(before.store) {
          CarriesKeeps(before.issued, LoadedDoc(before.store), s.issued, LoadedDoc(s.store));
        }
      }
    }
  }

  /** Rooms are only closed for a deletion when their snapshot covers what was stored. */
  ghost predicate CoveredDeletions(c: Config, s: Server, events: seq<RoomEvent>) {
    events != [] ==>
      && CoveredDeletions(c, s, events[..|events| - 1])
      && (events[|events| - 1].FileDeleted? ==> Covered(RoomRun(c, s, events[..|events| - 1]).store))
  }

  /** Deletion is the only way to fall behind: without one behind stored updates, no new epoch starts
      behind them either, and so every numbered update is kept. */
  lemma {:induction false} OnlyDeletionsFallBehind(c: Config, layer1: State, events: seq<RoomEvent>)
    requires BoundedRun(c, NoRooms(layer1), events) && CoveredDeletions(c, NoRooms(layer1), events)
    ensures CoveredRun(c, NoRooms(layer1), events) && RestsWhole(RoomRun(c, NoRooms(layer1), events))
  {
    StartIsDurable(layer1);
    hide Durable, Bounded, RoomStep, Carries, Covered, Whole;
    if events != [] {
      var before := RoomRun(c, NoRooms(layer1), events[..|events| - 1]);
      OnlyDeletionsFallBehind(c, layer1, events[..|events| - 1]);
      RunIsDurable(c, layer1, events[..|events| - 1]);
      RoomStepKeeps(c, before, events[|events| - 1]);
      CoveredMeansWhole(before.store);
    }
  }

  // ---- the two conditions are exact ----

  lemma {:induction false} MergedBounds(list: seq<StoredUpdate>, base: Doc, extra: StoredUpdate)
    requires forall u :: u in list ==> u.update <= base
    ensures Merged(list + [extra], base) == base + extra.update
  {
    MergedWithin(list, base);
    assert (list + [extra])[..|list|] == list;
  }

  /** What is read back when a snapshot claims to reach through t and one more update follows. */
  lemma ReadBackAfter(r: PersistedRoom, list: seq<StoredUpdate>, doc: Doc, u: StoredUpdate)
    requires r.seeded && r.snapshot == Some(doc) && forall x :: x in list ==> x.update <= doc
    ensures DocOf(r, list + [u]) == if u.n > r.compactedThroughSeq then doc + u.update else doc
  {
    assert (list + [u])[..|list|] == list;
    AfterItems(list, r.compactedThroughSeq);
    MergedWithin(UpdatesAfter(list, r.compactedThroughSeq), doc);
    MergedBounds(UpdatesAfter(list, r.compactedThroughSeq), doc, u);
    assert UpdatesAfter(list, r.compactedThroughSeq) + [] == UpdatesAfter(list, r.compactedThroughSeq);
  }

  lemma {:induction false} CompactedThenEdited(c: Config, s: Server, t: int, deviceId: string, update: Doc, now: nat)
    requires Durable(s) && s.room.Some?
    ensures var (rt, n) := (s.room.value, s.room.value.persisted.nextSeq);
      var s1 := Compact(c, s, Some(t));
      var s2 := Accept(c, s1, s1.room.value, deviceId, update, now);
      var edited := Edited(c, Snapshotted(rt, t), deviceId, update, now);
      && s2.room.value.doc == rt.doc + update
      && RoomRecord(s2.store) == (if Cadence(c, n) then Snapshotted(edited, n) else edited).persisted
      && UpdatesOf(s2.store, rt.persisted.epoch) == UpdatesAfter(UpdatesOf(s.store, rt.persisted.epoch), t)
           + [StoredUpdate(rt.persisted.nextSeq, deviceId, update)]
  {
    InMemory(s);
    var list := UpdatesOf(s.store, s.room.value.persisted.epoch);
    AfterItems(list, t);
    AppendsAtEnd(UpdatesAfter(list, t), StoredUpdate(s.room.value.persisted.nextSeq, deviceId, update));
    hide Durable, RoomSound, NothingLater, InsertUpdate, UpdatesAfter, LoadedDoc;
  }

  /** After a compaction through t the next update survives a reload exactly if t was already handed
      out, a snapshot is due with the update, or the update brings nothing new. */
  lemma {:induction false} CompactionLimit(c: Config, s: Server, t: int, deviceId: string, update: Doc, now: nat)
    requires Durable(s) && s.room.Some? && s.room.value.persisted.active
    ensures var rt := s.room.value;
      var s1 := Compact(c, s, Some(t));
      var s2 := Accept(c, s1, s1.room.value, deviceId, update, now);
      LoadedDoc(s2.store) == s2.room.value.doc <==>
        t < rt.persisted.nextSeq || Cadence(c, rt.persisted.nextSeq) || update <= rt.doc
  {
    CompactedThenEdited(c, s, t, deviceId, update, now);
    InMemory(s);
    var rt := s.room.value;
    var list, u := UpdatesOf(s.store, rt.persisted.epoch), StoredUpdate(rt.persisted.nextSeq, deviceId, update);
    AfterItems(list, t);
    var r := Edited(c, Snapshotted(rt, t), deviceId, update, now).persisted;
    ReadBackAfter(r, UpdatesAfter(list, t), rt.doc, u);
    AfterItems(UpdatesAfter(list, t) + [u], u.n);
    MergedWithin(UpdatesAfter(UpdatesAfter(list, t) + [u], u.n), rt.doc + update);
    hide Durable, NothingLater, UpdatesAfter, DocOf, Compact, Accept, UpdatesOf;
  }

  lemma ReopenedDoc(c: Config, s: Server, layer1: State, deviceId: string, now: nat)
    requires Durable(s) && s.room.Some? && s.room.value.persisted.active
    requires c.fileId in layer1.files.at && !layer1.files.at[c.fileId].deleted && !layer1.files.at[c.fileId].encrypted
    ensures var s' := Promote(c, CloseDeleted(c, s).(layer1 := layer1), deviceId, true, now).0;
      s'.room.Some? && RoomRecord(s.store).snapshot == Some(s'.room.value.doc)
  {
    InMemory(s);
    hide Durable, NothingLater, UpdatesOf, DocOf, SeedDoc;
  }

  /** A room that was closed because its file was deleted, and is opened again later, still has its
      document exactly if every update stored behind the last snapshot was within it. */
  lemma ReopenedAfterDeletion(c: Config, s: Server, layer1: State, deviceId: string, now: nat)
    requires Durable(s) && s.room.Some? && s.room.value.persisted.active
    requires c.fileId in layer1.files.at && !layer1.files.at[c.fileId].deleted && !layer1.files.at[c.fileId].encrypted
    ensures var s' := Promote(c, CloseDeleted(c, s).(layer1 := layer1), deviceId, true, now).0;
      s'.room.Some? && (s.room.value.doc <= s'.room.value.doc <==> Covered(s.store))
  {
    InMemory(s);
    SnapshotWithin(s.store);
    CoveredMeansWhole(s.store);
    ReopenedDoc(c, s, layer1, deviceId, now);
    hide Durable, NothingLater, RoomSound, Promote, CloseDeleted, LoadedDoc, Covered;
  }
}
