/** Two runs of a room after which an acknowledged update is gone: a compaction beyond the numbers
    handed out, and a file deleted and restored while its room holds an update without a snapshot. */
module RoomLosses {
  import opened Options
  import opened VersionVectors
  import opened Paths
  import opened Vault
  import opened VaultRuns
  import opened Rooms
  import opened RoomRuns
  import opened SmallRuns

  /** The room of f with the default lease, rate limit and snapshot cadence. */
  function RoomOfF(yjs: Yjs): Config {
    Config.Config("f", 60000, 120, 10000, 20, yjs)
  }

  const RESTORE_F := Plain("3", "d", 3, "f", Restore, map["d" := 3])

  /** Device d creates f, joins its room, compacts through number 5 and sends its first update. */
  const JOINED := [Layer1(Register("d"))] + [Layer1(Submit(CREATE_F, true, 0, "k"))] + [PromoteRoom("d", true, 0)]
  const COMPACTED := JOINED + [CompactRoom(Some(5))] + [Edit(true, "d", 1, {"x"}, 0)] + [Reload]

  /** Device d creates f, joins its room and sends an update; f is deleted, restored and joined again. */
  const DELETED := JOINED + [Edit(true, "d", 1, {"x"}, 0)] + [Layer1(Submit(DELETE_F, true, 0, "k"))] + [FileDeleted]
  const REJOINED := DELETED + [Layer1(Submit(RESTORE_F, true, 0, "k"))] + [PromoteRoom("d", true, 0)]

  lemma OneMoreEvent(c: Config, s: Server, events: seq<RoomEvent>, e: RoomEvent)
    ensures RoomRun(c, s, events + [e]) == RoomStep(c, RoomRun(c, s, events), e)
  {
    assert (events + [e])[..|events|] == events;
    hide RoomStep;
  }

  /** Epoch 1 is running with d in it; the snapshot is empty and covers through t; f is live in Layer 1. */
  ghost predicate Running(s: Server, t: int) {
    && s.room.Some? && s.room.value.phase.Active? && s.room.value.doc == {}
    && s.room.value.persisted == RoomRecord(s.store)
    && s.room.value.participants.Keys == {"d"} && s.room.value.participants["d"].mayEdit
    && s.room.value.participants["d"].updatesInWindow == 0
    && s.issued == [] && s.store.updates.Keys <= {1} && UpdatesOf(s.store, 1) == []
    && var r := RoomRecord(s.store);
       r.active && r.seeded && r.epoch == 1 && r.nextSeq == 1 && r.snapshot == Some({}) && r.compactedThroughSeq == t
  }

  ghost predicate FileRuns(s: State) {
    && Awaits(s, "d", 2) && s.journal.opsById.Keys == {Uuid("1")}
    && "f" in s.files.at && OnlyF(s, s.files.at["f"]) && !s.files.at["f"].deleted && !s.files.at["f"].encrypted
    && s.files.at["f"].contentHash.None? && s.files.at["f"].conflictId.None?
  }

  lemma FirstJoined(c: Config, s: Server)
    requires c.fileId == "f" && FileRuns(s.layer1) && s.store == NO_ROOM && s.room.None? && s.issued == []
    ensures var s' := RoomStep(c, s, PromoteRoom("d", true, 0)); Running(s', 0) && FileRuns(s'.layer1)
  {
  }

  lemma {:induction false} RunJoined(c: Config)
    requires c.fileId == "f"
    ensures var s := RoomRun(c, NoRooms(Initial), JOINED); Running(s, 0) && FileRuns(s.layer1)
  {
    var start, e1, e2 := NoRooms(Initial), Register("d"), Submit(CREATE_F, true, 0, "k");
    var s1 := RoomStep(c, start, Layer1(e1));
    Registered(s1.layer1);
    FirstCreated(s1.layer1);
    var s2 := RoomStep(c, s1, Layer1(e2));
    assert s2 == NoRooms(Step(s1.layer1, e2));
    FirstJoined(c, s2);
    hide Running, FileRuns, Step;
    OneMoreEvent(c, start, [], Layer1(e1));
    assert [] + [Layer1(e1)] == [Layer1(e1)];
    OneMoreEvent(c, start, [Layer1(e1)], Layer1(e2));
    OneMoreEvent(c, start, [Layer1(e1)] + [Layer1(e2)], PromoteRoom("d", true, 0));
  }

  // ---- compaction beyond the numbers ----

  lemma CompactsBeyond(c: Config, s: Server)
    requires c.fileId == "f" && Running(s, 0)
    ensures Running(RoomStep(c, s, CompactRoom(Some(5))), 5)
  {
  }

  /** The first update, stored behind a snapshot that claims to cover through t. */
  ghost predicate Holding(s: Server, t: int) {
    && s.room.Some? && s.room.value.phase.Active? && s.room.value.persisted == RoomRecord(s.store)
    && s.issued == [Issued(1, 1, {"x"})] && s.store.updates.Keys <= {1}
    && UpdatesOf(s.store, 1) == [StoredUpdate(1, "d", {"x"})]
    && var r := RoomRecord(s.store);
       r.active && r.seeded && r.epoch == 1 && r.snapshot == Some({}) && r.compactedThroughSeq == t
  }

  lemma FirstEdited(yjs: Yjs, s: Server, t: int)
    requires Running(s, t)
    ensures var s' := RoomStep(RoomOfF(yjs), s, Edit(true, "d", 1, {"x"}, 0));
      Holding(s', t) && s'.room.value.doc == {"x"} && (FileRuns(s.layer1) ==> FileRuns(s'.layer1))
  {
  }

  lemma HiddenByCompaction(c: Config, s: Server)
    requires Holding(s, 5)
    ensures var s' := RoomStep(c, s, Reload); s'.issued == s.issued && LoadedDoc(s'.store) == {}
  {
    assert UpdatesAfter([StoredUpdate(1, "d", {"x"})], 5) == [];
  }

  /** An update that was given number 1 is gone after a reload. */
  lemma {:induction false} CompactionLosesAnUpdate(yjs: Yjs)
    ensures var s := RoomRun(RoomOfF(yjs), NoRooms(Initial), COMPACTED);
      s.issued == [Issued(1, 1, {"x"})] && LoadedDoc(s.store) == {}
  {
    var c, start := RoomOfF(yjs), NoRooms(Initial);
    hide JOINED;
    RunJoined(c);
    var s1 := RoomRun(c, start, JOINED);
    CompactsBeyond(c, s1);
    var s2 := RoomStep(c, s1, CompactRoom(Some(5)));
    FirstEdited(yjs, s2, 5);
    HiddenByCompaction(c, RoomStep(c, s2, Edit(true, "d", 1, {"x"}, 0)));
    hide Running, LoadedDoc, RoomStep, FileRuns;
    OneMoreEvent(c, start, JOINED, CompactRoom(Some(5)));
    OneMoreEvent(c, start, JOINED + [CompactRoom(Some(5))], Edit(true, "d", 1, {"x"}, 0));
    OneMoreEvent(c, start, JOINED + [CompactRoom(Some(5))] + [Edit(true, "d", 1, {"x"}, 0)], Reload);
  }

  // ---- deletion and restore ----

  /** The room is closed, its update stored behind the empty snapshot. */
  ghost predicate Behind(s: Server) {
    && s.room.Some? && s.room.value.phase.Closed? && s.room.value.persisted == RoomRecord(s.store)
    && s.issued == [Issued(1, 1, {"x"})]
    && UpdatesOf(s.store, 2) == []
    && var r := RoomRecord(s.store); !r.active && r.epoch == 1 && r.snapshot == Some({})
  }

  ghost predicate FileTrashed(s: State) {
    && Awaits(s, "d", 3) && s.journal.opsById.Keys == {Uuid("1"), Uuid("2")}
    && "f" in s.files.at && OnlyF(s, s.files.at["f"]) && s.files.at["f"].deleted && !s.files.at["f"].encrypted
    && s.files.at["f"].conflictId.None?
  }

  lemma ClosedForDeletion(c: Config, s: Server)
    requires c.fileId == "f" && Holding(s, 0) && FileTrashed(s.layer1)
    ensures var s' := RoomStep(c, s, FileDeleted);
      Behind(s') && FileTrashed(s'.layer1) && s'.layer1.files.at["f"].activeUntil.None?
  {
  }

  lemma ThenRestored(s: State)
    requires FileTrashed(s) && s.files.at["f"].activeUntil.None?
    ensures var s' := Step(s, Submit(RESTORE_F, true, 0, "k"));
      "f" in s'.files.at && !s'.files.at["f"].deleted && !s'.files.at["f"].encrypted
  {
    PlainPath();
    Unoccupied(s.files, "f");
    hide Step, NormalizePath, UniquePath, Join, UpdatedRefs;
    Accepted(s, "3", "d", 3, "f", Restore, map["d" := 3], "k");
  }

  lemma JoinedAgain(c: Config, s: Server)
    requires c.fileId == "f" && Behind(s)
    requires "f" in s.layer1.files.at && !s.layer1.files.at["f"].deleted && !s.layer1.files.at["f"].encrypted
    ensures var s' := RoomStep(c, s, PromoteRoom("d", true, 0)); s'.issued == s.issued && LoadedDoc(s'.store) == {}
  {
  }

  lemma TrashedWhileHeld(c: Config, s: Server)
    requires Holding(s, 0) && FileRuns(s.layer1)
    ensures var s' := RoomStep(c, s, Layer1(Submit(DELETE_F, true, 0, "k"))); Holding(s', 0) && FileTrashed(s'.layer1)
  {
    hide Step, Awaits;
    ThenDeleted(s.layer1, s.layer1.files.at["f"]);
  }

  lemma {:induction false} RunDeleted(yjs: Yjs)
    ensures var s := RoomRun(RoomOfF(yjs), NoRooms(Initial), DELETED);
      Behind(s) && FileTrashed(s.layer1) && s.layer1.files.at["f"].activeUntil.None?
  {
    var c, start, edit, delete := RoomOfF(yjs), NoRooms(Initial), Edit(true, "d", 1, {"x"}, 0),
        Layer1(Submit(DELETE_F, true, 0, "k"));
    hide JOINED, Running, RoomStep, FileRuns, Holding, Behind, Awaits, OnlyF;
    RunJoined(c);
    var s1 := RoomRun(c, start, JOINED);
    FirstEdited(yjs, s1, 0);
    var s2 := RoomStep(c, s1, edit);
    TrashedWhileHeld(c, s2);
    ClosedForDeletion(c, RoomStep(c, s2, delete));
    hide FileTrashed;
    OneMoreEvent(c, start, JOINED, edit);
    OneMoreEvent(c, start, JOINED + [edit], delete);
    OneMoreEvent(c, start, JOINED + [edit] + [delete], FileDeleted);
  }

  lemma RestoredAndJoined(c: Config, s: Server)
    requires c.fileId == "f" && Behind(s) && FileTrashed(s.layer1) && s.layer1.files.at["f"].activeUntil.None?
    ensures var s' := RoomStep(c, RoomStep(c, s, Layer1(Submit(RESTORE_F, true, 0, "k"))), PromoteRoom("d", true, 0));
      s'.issued == s.issued && LoadedDoc(s'.store) == {}
  {
    hide Step, LoadedDoc, FileTrashed, Promote;
    ThenRestored(s.layer1);
    JoinedAgain(c, RoomStep(c, s, Layer1(Submit(RESTORE_F, true, 0, "k"))));
  }

  /** An update that was given number 1 is not in the document of the room that is opened again. */
  lemma {:induction false} DeletionLosesAnUpdate(yjs: Yjs)
    ensures var s := RoomRun(RoomOfF(yjs), NoRooms(Initial), REJOINED);
      s.issued == [Issued(1, 1, {"x"})] && LoadedDoc(s.store) == {}
  {
    var c, start, restore := RoomOfF(yjs), NoRooms(Initial), Layer1(Submit(RESTORE_F, true, 0, "k"));
    hide LoadedDoc, DELETED, RoomStep, FileTrashed;
    RunDeleted(yjs);
    RestoredAndJoined(c, RoomRun(c, start, DELETED));
    OneMoreEvent(c, start, DELETED, restore);
    OneMoreEvent(c, start, DELETED + [restore], PromoteRoom("d", true, 0));
  }
}
