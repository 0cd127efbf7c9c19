/** Joining a room and leaving it again without an edit: what that does to the file, and the edit it undoes
    when the file changed in Layer 1 while its room was at rest. */
module DormantEdits {
  import opened Options
  import opened OrderedMaps
  import opened VersionVectors
  import opened Paths
  import opened Vault
  import opened VaultRuns
  import opened Rooms
  import opened RoomRuns
  import opened LaneExclusion
  import opened RoomAnswers
  import opened RoomContent
  import opened RoomLosses
  import opened SmallRuns

  /** The room is at rest and the file can be joined, with no conflict pending. */
  ghost predicate AtRest(c: Config, s: Server) {
    && !RoomRecord(s.store).active && Joinable(c, s.layer1) && s.layer1.files.at[c.fileId].conflictId.None?
    && RoomRecord(s.store).epoch < MAX_SAFE_INTEGER
  }

  /** The file's hash and version. */
  ghost predicate FileHas(c: Config, layer1: State, hash: Option<Hash>, above: VersionVector) {
    && c.fileId in layer1.files.at && layer1.files.at[c.fileId].contentHash == hash
    && Dominates(layer1.files.at[c.fileId].contentVV, above)
  }

  lemma {:induction false} JoinedRun(c: Config, s: Server, events: seq<RoomEvent>, d: string, now: nat)
    requires Beginning(c, s) && AllowedRun(c, s, events) && AtRest(c, RoomRun(c, s, events))
    ensures var s', e := RoomRun(c, s, events), PromoteRoom(d, true, now);
      && AllowedRun(c, s, events + [e]) && RoomRun(c, s, events + [e]) == RoomStep(c, s', e)
      && RoomOf(s').persisted == RoomRecord(s'.store) && Exclusive(c, s')
  {
    RunKeepsExclusive(c, s, events);
    OneMoreEvent(c, s, events, PromoteRoom(d, true, now));
    assert (events + [PromoteRoom(d, true, now)])[..|events|] == events;
    hide RoomRun, RoomStep, Beginning, LoadedDoc;
  }

  /** In every run: whoever joins the resting room and demotes it leaves in Layer 1 the hash of the text of the
      document the join was answered with, without conflict, under a version above the old one. */
  lemma {:induction false} JoinAndDemote(c: Config, s: Server, events: seq<RoomEvent>, d: string, now: nat,
          joined: seq<VersionVector>, now': nat, freshId: string)
    requires Beginning(c, s) && AllowedRun(c, s, events) && AtRest(c, RoomRun(c, s, events))
    ensures var s' := RoomRun(c, s, events);
      var (after, answer) := Promote(c, s', d, true, now);
      var (done, closed) := Demote(c, after, None, joined, now', freshId);
      && answer.RoomState? && closed == RoomClosed(Some(Digest(c.yjs.textOf(answer.doc))))
      && FileHas(c, done.layer1, Some(Digest(c.yjs.textOf(answer.doc))), s'.layer1.files.at[c.fileId].contentVV)
      && done.issued == s'.issued
  {
    var s', e := RoomRun(c, s, events), PromoteRoom(d, true, now);
    JoinedRun(c, s, events, d, now);
    var (after, answer) := Promote(c, s', d, true, now);
    assert RoomStep(c, s', e) == after;
    hide RoomRun, AllowedRun, Beginning, Exclusive, RoomStep;
    JoinDecides(c, s', d, true, now);
    hide Promote;
    DemoteFlushLands(c, s, events + [e], joined, now', freshId);
    DemoteDecides(c, after, None, joined, now', freshId);
    hide Process, FlushOp, Demote, DemoteLocked, Materialized;
  }

  /** After joining and demoting without an edit the file's content is what it was exactly if the document the
      join starts from has that text: the last snapshot or, without one, the seed. */
  lemma ReopeningKeepsTheFile(c: Config, s: Server, events: seq<RoomEvent>, d: string, now: nat,
          joined: seq<VersionVector>, now': nat, freshId: string)
    requires Beginning(c, s) && AllowedRun(c, s, events) && AtRest(c, RoomRun(c, s, events))
    ensures var s' := RoomRun(c, s, events);
      var hash, snapshot := s'.layer1.files.at[c.fileId].contentHash, RoomRecord(s'.store).snapshot;
      var done := Demote(c, Promote(c, s', d, true, now).0, None, joined, now', freshId).0;
      && c.fileId in done.layer1.files.at
      && var kept := done.layer1.files.at[c.fileId].contentHash == hash;
         && (snapshot.Some? ==> (kept <==> hash == Some(Digest(c.yjs.textOf(snapshot.value)))))
         && (forall t :: snapshot.None? && HasText(c, s'.layer1, t) ==> (kept <==> c.yjs.textOf(c.yjs.seed(t)) == t))
  {
    var s' := RoomRun(c, s, events);
    JoinedRun(c, s, events, d, now);
    JoinAndDemote(c, s, events, d, now, joined, now', freshId);
    hide RoomRun, AllowedRun, Beginning, Exclusive, Promote, Demote;
    FirstRoomHoldsTheText(c, s', d, now);
  }

  // ---- an edit that is undone ----

  /** Device d changes the text of f to "u" in Layer 1, knowing the version the room left there. */
  const EDIT_F := Plain("2", "d", 2, "f", Update, map["d" := 2, "collab:f" := 1])
                  .(contentHash := Some(Digest("u")), inlineText := Some("u"))
  const JOIN := PromoteRoom("d", true, 0)
  const DEMOTE := DemoteRoom(None, [map["d" := 1]], 0, "k")
  const EDITED := Layer1(Submit(EDIT_F, true, 0, "k"))

  /** The room of f has been opened on the empty document. */
  ghost predicate Begun(s: Server) {
    && Running(s, 0) && FileRuns(s.layer1) && s.layer1.conflicts == Empty()
    && s.layer1.files.at["f"].contentVV == map["d" := 1] && Held(s.layer1.files.at, "f", RoomRecord(s.store))
  }

  /** The room of f is at rest behind an empty snapshot, f has the version it left. */
  ghost predicate Rested(s: Server) {
    && !RoomRecord(s.store).active && RoomRecord(s.store).snapshot == Some({}) && RoomRecord(s.store).epoch == 1
    && s.layer1.conflicts == Empty() && Awaits(s.layer1, "d", 2) && Uuid("2") !in s.layer1.journal.opsById
    && "f" in s.layer1.files.at
    && var file := s.layer1.files.at["f"];
       && file.contentVV == map["d" := 1, "collab:f" := 1] && file.activeUntil.None? && file.conflictId.None?
       && !file.deleted && !file.encrypted && file.fileId == "f"
  }

  lemma Begins(c: Config, layer1: State)
    requires c.fileId == "f" && OnlyF(layer1, NewFile(CREATE_F)) && layer1.conflicts == Empty()
    requires Awaits(layer1, "d", 2) && layer1.journal.opsById.Keys == {Uuid("1")}
    ensures Begun(RoomStep(c, NoRooms(layer1), JOIN))
  {
    hide Awaits, CaseFold;
    FirstJoined(c, NoRooms(layer1));
  }

  lemma FlushedVersion(c: Config, rt: Runtime)
    requires c.fileId == "f" && rt.persisted.baseVV == map["d" := 1]
    ensures FlushOp(c, rt, [map["d" := 1]]).newContentVV == Some(map["d" := 1, "collab:f" := 1])
  {
    var base: VersionVector := map["d" := 1];
    assert [base][..0] == [];
    assert JoinAll(base, [base]) == Join(base, base) == base;
    assert CollabDevice("f") == "collab:f";
    assert Bump(base, "collab:f") == map["d" := 1, "collab:f" := 1];
    hide ByteLength;
  }

  lemma Flushes(c: Config, layer1: State, rt: Runtime)
    requires c.fileId == "f" && FileRuns(layer1) && rt.persisted.epoch == 1 && rt.persisted.baseVV == map["d" := 1]
    requires Held(layer1.files.at, "f", rt.persisted)
    ensures var (s', r) := Process(layer1, FlushOp(c, rt, [map["d" := 1]]), true, 0, "k");
      && r.Ack? && s'.conflicts == layer1.conflicts && Awaits(s', "d", 2) && Uuid("2") !in s'.journal.opsById
      && s'.files == Set(layer1.files, "f", Overwritten(FlushOp(c, rt, [map["d" := 1]]), layer1.files.at["f"]))
  {
    var op := FlushOp(c, rt, [map["d" := 1]]);
    FlushPrepares(c, layer1, rt, [map["d" := 1]], 0, "k");
    FlushIsAccepted(c, layer1, rt, [map["d" := 1]], 0, "k");
    ProcessCases(layer1, op, true, 0, "k");
    EffectCases(layer1, op, 0, "k");
    hide Process, Prepare, StoredContent, InsertBySeq, ByteLength, JoinAll, Bump;
  }

  lemma {:induction false} Rests(c: Config, s: Server)
    requires c.fileId == "f" && Begun(s)
    ensures Rested(RoomStep(c, s, DEMOTE))
  {
    var rt, op := s.room.value, FlushOp(c, s.room.value, [map["d" := 1]]);
    FlushedVersion(c, rt);
    Flushes(c, s.layer1, rt);
    var flushed := Process(s.layer1, op, true, 0, "k").0;
    hide Process, Awaits, JoinAll, Bump, ByteLength;
    assert RoomStep(c, s, DEMOTE) == CloseFlushed(c, s.(layer1 := flushed), rt);
  }

  lemma EditApplies(layer1: State)
    requires Awaits(layer1, "d", 2) && Uuid("2") !in layer1.journal.opsById && "f" in layer1.files.at
    requires var file := layer1.files.at["f"];
      && file.contentVV == map["d" := 1, "collab:f" := 1] && file.activeUntil.None? && file.conflictId.None?
    ensures Admission(layer1.journal, EDIT_F, true).None? && !Synthetic(EDIT_F)
    ensures var r := Prepare(layer1, EDIT_F, 0, "k");
      r.Success? && r.value.file == Overwritten(EDIT_F, layer1.files.at["f"])
  {
    assert |CollabDevice("f")| == 8 && |"d"| == 1;
    assert Validate(layer1, EDIT_F).None?;
    assert Dominates(map["d" := 2, "collab:f" := 1], map["d" := 1, "collab:f" := 1]) by {
      assert "collab:f" != "d" by { assert |"collab:f"| == 8; }
    }
    hide Validate, Dominates, UpdatedRefs;
  }

  /** The edit has been accepted; nothing else happened since the room came to rest. */
  lemma {:induction false} Edits(c: Config, s: Server)
    requires c.fileId == "f" && Rested(s)
    ensures var s' := RoomStep(c, s, EDITED);
      && s'.store == s.store && s'.room == s.room && AtRest(c, s') && KeepsOut(c, s, EDITED.event)
      && s'.layer1.files.at["f"].contentHash == Some(Digest("u"))
      && RoomRecord(s'.store).snapshot == Some({}) && RoomRecord(s'.store).epoch == 1
  {
    EditApplies(s.layer1);
    ProcessCases(s.layer1, EDIT_F, true, 0, "k");
    hide Process, Prepare, StoredContent, InsertBySeq, Awaits, Admission, Record;
  }

  /** Device d creates f, joins and demotes its room, and then changes f in Layer 1. */
  const DORMANT := [JOIN] + [DEMOTE] + [EDITED]

  lemma Starts(c: Config, layer1: State)
    requires c.fileId == "f" && layer1 == Run(Initial, CREATED)
    ensures Beginning(c, NoRooms(layer1)) && Allowed(c, NoRooms(layer1), JOIN)
    ensures Begun(RoomStep(c, NoRooms(layer1), JOIN))
  {
    RunCreated();
    assert Reachable(layer1);
    hide Run, ValidRun, Reachable, RoomStep, CREATED, CaseFold;
    Begins(c, layer1);
  }

  lemma MayDemote(c: Config, s: Server)
    requires Begun(s)
    ensures Allowed(c, s, DEMOTE)
  {
    hide Awaits;
  }

  lemma MayEdit(c: Config, s: Server)
    requires KeepsOut(c, s, EDITED.event)
    ensures Allowed(c, s, EDITED)
  {
  }

  lemma {:induction false} RunDormant(yjs: Yjs, layer1: State)
    requires layer1 == Run(Initial, CREATED)
    ensures var c, s := RoomOfF(yjs), NoRooms(layer1);
      var s' := RoomRun(c, s, DORMANT);
      && Beginning(c, s) && AllowedRun(c, s, DORMANT) && AtRest(c, s')
      && s'.layer1.files.at["f"].contentHash == Some(Digest("u")) && RoomRecord(s'.store).snapshot == Some({})
      && RoomOf(s').persisted == RoomRecord(s'.store) && RoomRecord(s'.store).epoch == 1
  {
    var c, s := RoomOfF(yjs), NoRooms(layer1);
    hide Run, Allowed, RoomStep, Rested, Begun, Beginning, Awaits, OnlyF, KeepsOut;
    Starts(c, layer1);
    var s1 := RoomStep(c, s, JOIN);
    Rests(c, s1);
    var s2 := RoomStep(c, s1, DEMOTE);
    Edits(c, s2);
    MayDemote(c, s1);
    assert Allowed(c, s2, EDITED) by { MayEdit(c, s2); }
    OneMoreEvent(c, s, [], JOIN);
    assert [] + [JOIN] == [JOIN];
    OneMoreEvent(c, s, [JOIN], DEMOTE);
    OneMoreEvent(c, s, [JOIN] + [DEMOTE], EDITED);
    OneMoreAllowed(c, s, [], JOIN);
    OneMoreAllowed(c, s, [JOIN], DEMOTE);
    OneMoreAllowed(c, s, [JOIN] + [DEMOTE], EDITED);
    hide AllowedRun, RoomRun;
    RunKeepsExclusive(c, s, DORMANT);
  }

  lemma OneMoreAllowed(c: Config, s: Server, events: seq<RoomEvent>, e: RoomEvent)
    requires AllowedRun(c, s, events) && Allowed(c, RoomRun(c, s, events), e)
    ensures AllowedRun(c, s, events + [e])
  {
    assert (events + [e])[..|events|] == events;
    hide Allowed, RoomRun;
  }

  /** The edit was accepted while the room was at rest; joining and demoting without an edit puts the text of the
      old snapshot back over it, under a higher version and without a conflict. */
  lemma {:induction false} DormantEditIsOverwritten(yjs: Yjs)
    requires yjs.textOf({}) == ""
    ensures var c := RoomOfF(yjs);
      var s := RoomRun(c, NoRooms(Run(Initial, CREATED)), DORMANT);
      "f" in s.layer1.files.at &&
      var joined, (after, answer) := s.layer1.files.at["f"].contentVV, Promote(c, s, "d", true, 0);
      var (done, closed) := Demote(c, after, None, [joined], 0, "k");
      && s.layer1.files.at["f"].contentHash == Some(Digest("u"))
      && answer == RoomState(2, {}) && closed == RoomClosed(Some(Digest("")))
      && FileHas(c, done.layer1, Some(Digest("")), joined)
  {
    var c, layer1 := RoomOfF(yjs), Run(Initial, CREATED);
    RunDormant(yjs, layer1);
    hide RoomRun, AllowedRun, Beginning, Promote, Demote, DORMANT, CREATED, Run;
    var s := RoomRun(c, NoRooms(layer1), DORMANT);
    JoinAndDemote(c, NoRooms(layer1), DORMANT, "d", 0, [s.layer1.files.at["f"].contentVV], 0, "k");
    FirstRoomHoldsTheText(c, s, "d", 0);
  }

  /** Compacting a room that was never opened stores an empty snapshot, and the file's text does not reach the
      room any more. */
  lemma CompactedBeforeOpening(c: Config, layer1: State, d: string, now: nat)
    requires Joinable(c, layer1)
    ensures Promote(c, Compact(c, NoRooms(layer1), None), d, true, now).1 == RoomState(1, {})
  {
  }
}
