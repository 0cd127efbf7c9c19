/** What the server makes of an operation whose sender it takes: which checks refuse it with which
    code, and what an accepted operation leaves behind. */
module Acceptance {
  import opened Options
  import opened OrderedMaps
  import opened VersionVectors
  import opened PathClocks
  import opened Paths
  import opened Vault
  import opened VaultRuns
  import opened Senders

  /** A new operation of a room, or the next one of a device that may change the vault. */
  ghost predicate Taken(s: State, op: FileOp, mayWrite: bool) {
    && op.opId !in s.journal.opsById
    && (op.deviceId == "collab:" + op.fileId ||
        (MayChange(s, op.deviceId, mayWrite) && op.deviceSeq == s.journal.devices[op.deviceId].lastDeviceSeq + 1))
  }

  ghost predicate Identified(op: FileOp) {
    op.opId != Uuid("") && op.deviceId != "" && op.fileId != "" && 1 <= op.deviceSeq <= 9007199254740991
  }

  ghost predicate Located(op: FileOp) {
    && (op.kind.Create? || op.kind.Rename? ==> op.newPath.Some? && op.newPath.value != "")
    && (op.newPath.Some? && op.newPath.value != "" ==> NormalizePath(op.newPath.value).Some?)
  }

  ghost predicate BringsContent(op: FileOp) {
    op.kind.Create? || op.kind.Update? || op.kind.Restore?
  }

  ghost predicate Given(h: Option<Hash>) {
    h.Some? && h != Some(Malformed(""))
  }

  /** The hash is one; encrypted content is not sent as text and is there; text is what its hash says. */
  ghost predicate HashFits(s: State, op: FileOp) {
    BringsContent(op) && Given(op.contentHash) ==>
      && op.contentHash.value.Digest?
      && (op.encrypted ==> op.inlineText.None? && (Given(op.blobRef) || op.contentHash.value in s.content))
      && (op.inlineText.Some? ==> op.contentHash == Some(Digest(op.inlineText.value)))
  }

  /** A blob named beside a hash has been uploaded and measured. */
  ghost predicate BlobFits(s: State, op: FileOp) {
    BringsContent(op) && Given(op.contentHash) && Given(op.blobRef) ==>
      && op.blobRef.value in s.blobs.at && s.blobs.at[op.blobRef.value].state.Verified?
      && op.size == Some(s.blobs.at[op.blobRef.value].size)
  }

  /** A device's content operation meets a running room. */
  ghost predicate InRoom(s: State, op: FileOp, now: nat) {
    && op.deviceId != "collab:" + op.fileId && BringsContent(op) && op.fileId in s.files.at
    && s.files.at[op.fileId].activeUntil.Some? && s.files.at[op.fileId].activeUntil.value > now
  }

  ghost predicate InConflict(s: State, op: FileOp) {
    && BringsContent(op) && op.fileId in s.files.at
    && s.files.at[op.fileId].conflictId.Some? && s.files.at[op.fileId].conflictId != Some("")
  }

  lemma TakenIsAdmitted(s: State, op: FileOp, mayWrite: bool)
    requires Taken(s, op, mayWrite)
    ensures Admission(s.journal, op, mayWrite).None? && (Synthetic(op) <==> op.deviceId == "collab:" + op.fileId)
  {
    assert CollabDevice(op.fileId) == "collab:" + op.fileId;
  }

  lemma ShapeDecides(op: FileOp)
    ensures ValidateShape(op) ==
      if !Identified(op) then Some(Sync(BAD_REQUEST))
      else if !Located(op) then
        if (op.kind.Create? || op.kind.Rename?) && (op.newPath.None? || op.newPath.value == "")
        then Some(Sync(ILLEGAL_PATH)) else Some(PathError)
      else None
  {
    hide NormalizePath;
  }

  lemma HashDecides(s: State, op: FileOp)
    ensures var wrongText := BringsContent(op) && Given(op.contentHash) && op.contentHash.value.Digest?
        && !(op.encrypted && (op.inlineText.Some? || (!Given(op.blobRef) && op.contentHash.value !in s.content)))
        && op.inlineText.Some? && op.contentHash != Some(Digest(op.inlineText.value));
      ValidateHash(s.content, op) ==
        if HashFits(s, op) then None else if wrongText then Some(Sync(BLOB_HASH_MISMATCH)) else Some(Sync(BAD_REQUEST))
  {
  }

  lemma BlobDecides(s: State, op: FileOp)
    ensures ValidateBlob(s.blobs, op) == if BlobFits(s, op) then None else Some(Sync(BLOB_MISSING))
  {
  }

  /** The checks in their order, each with its code; what passes them all is applied. */
  lemma ChecksDecide(s: State, op: FileOp, mayWrite: bool, now: nat, freshId: string)
    requires Taken(s, op, mayWrite)
    ensures var (s', r) := Process(s, op, mayWrite, now, freshId);
      && (!Identified(op) ==> r == Reject(op.opId, BAD_REQUEST, None))
      && (Identified(op) && !Located(op) ==>
            r == (if (op.kind.Create? || op.kind.Rename?) && (op.newPath.None? || op.newPath.value == "")
                  then Reject(op.opId, ILLEGAL_PATH, None) else Thrown))
      && (Identified(op) && Located(op) && !HashFits(s, op) ==>
            || r == Reject(op.opId, BAD_REQUEST, None)
            || (r == Reject(op.opId, BLOB_HASH_MISMATCH, None) && op.inlineText.Some?
                && op.contentHash != Some(Digest(op.inlineText.value))))
      && (Identified(op) && Located(op) && HashFits(s, op) ==>
            && (!BlobFits(s, op) ==> r == Reject(op.opId, BLOB_MISSING, None))
            && (BlobFits(s, op) && InRoom(s, op, now) ==> r == Reject(op.opId, FILE_ACTIVE, None))
            && (BlobFits(s, op) && !InRoom(s, op, now) && InConflict(s, op) ==>
                  r == Reject(op.opId, CONFLICT_PENDING, None))
            && (BlobFits(s, op) && !InRoom(s, op, now) && !InConflict(s, op) ==>
                  && (op.fileId !in s.files.at && !op.kind.Create? ==> r == Reject(op.opId, NOT_FOUND, None))
                  && (op.fileId in s.files.at && !op.kind.Create? ==>
                        var file := s.files.at[op.fileId];
                        Prepare(s, op, now, freshId) ==
                          match op.kind
                          case Update => ApplyUpdate(s, op, file, freshId)
                          case Rename => ApplyRename(s, op, file)
                          case Delete => Success(ApplyDelete(s, op, file))
                          case _ => ApplyRestore(s, op, file))
                  && (op.fileId in s.files.at && op.kind.Create? && !s.files.at[op.fileId].deleted ==>
                        Prepare(s, op, now, freshId) == ApplyUpdate(s, op, s.files.at[op.fileId], freshId))))
      && (r.Ack? ==>
            && Identified(op) && Located(op) && HashFits(s, op) && BlobFits(s, op) && !InRoom(s, op, now)
            && !InConflict(s, op) && (op.fileId in s.files.at || op.kind.Create?))
      && (!r.Ack? ==> s' == s.(content := s'.content))
  {
    TakenIsAdmitted(s, op, mayWrite);
    ShapeDecides(op);
    HashDecides(s, op);
    BlobDecides(s, op);
    ProcessCases(s, op, mayWrite, now, freshId);
    hide Process, ValidateShape, ValidateHash, ValidateBlob, Admission, Commit, StoredContent, ApplyUpdate, ApplyRename,
         ApplyRestore, UniquePath, NormalizePath, Identified, Located, HashFits, BlobFits, Synthetic;
  }

  // ---- what an accepted operation leaves ----

  /** Every accepted operation takes the next number, its acknowledgement and its entry in the outbox carry
      the clocks of the file as stored, and no other file changes. */
  lemma AcceptedIsNumbered(s: State, op: FileOp, mayWrite: bool, now: nat, freshId: string)
    requires Commits(s, op, mayWrite, now, freshId) && Keyed(s.files.at)
    ensures var (s', r) := Process(s, op, mayWrite, now, freshId);
      var entry := StoredOp(s.journal.nextSeq, op.opId, op.deviceId, op.deviceSeq, op, r);
      var e := Prepare(s, op, now, freshId).value;
      && s'.files.at == s.files.at[op.fileId := e.file] && s'.conflicts == e.conflicts && s'.refs == e.refs
      && s'.blobs == s.blobs && r.Ack? && r.conflictId == e.conflictId
      && op.fileId in s'.files.at && s'.files.at == s.files.at[op.fileId := s'.files.at[op.fileId]]
      && var file := s'.files.at[op.fileId];
         && r.opId == op.opId && r.vaultSeq == s.journal.nextSeq
         && r.clocks == ResultingClocks(file.contentVV, file.pathClock, file.deleteVV, file.epoch)
         && s'.journal.nextSeq == s.journal.nextSeq + 1
         && s'.journal.outbox == s.journal.outbox + [AppliedOp(s.journal.nextSeq, op, r.clocks)]
         && s'.journal.opsById == s.journal.opsById[op.opId := entry]
         && s'.journal.opsByDeviceSeq == s.journal.opsByDeviceSeq[(op.deviceId, op.deviceSeq) := entry]
         && (op.deviceId in s.journal.devices && op.deviceId != "collab:" + op.fileId ==>
               s'.journal.devices == s.journal.devices[op.deviceId :=
                 StoredDevice(op.deviceSeq, s.journal.nextSeq, s.journal.devices[op.deviceId].revoked)])
  {
    assert CollabDevice(op.fileId) == "collab:" + op.fileId;
    ProcessCases(s, op, mayWrite, now, freshId);
    EffectCases(s, op, now, freshId);
    hide Process, Prepare, Admission, StoredContent, InsertBySeq, CollabDevice;
  }

  /** The path the operation gets: the first free form of the wanted one. */
  ghost predicate Allocated(s: State, wanted: string, fileId: string, path: string) {
    NormalizePath(wanted).Some? && UniquePath(s.files, NormalizePath(wanted).value, fileId) == Some(path)
  }

  /** How allocating the path fails. */
  ghost predicate NoPath(s: State, wanted: string, fileId: string, failure: Failure) {
    if NormalizePath(wanted).None? then failure == PathError
    else UniquePath(s.files, NormalizePath(wanted).value, fileId).None? && failure == Sync(ILLEGAL_PATH)
  }

  function LiveOf(blob: Option<Hash>, f: string): set<BlobRef> {
    if blob.Some? && blob != Some(Malformed("")) then {FileLive(blob.value, f)} else {}
  }

  /** A create of a file that is not live starts a new history: the file is what the operation says, at an
      allocated path. */
  lemma CreateLeaves(s: State, op: FileOp, now: nat, freshId: string)
    requires Prepare(s, op, now, freshId).Success? && op.kind.Create?
    requires op.fileId in s.files.at ==> s.files.at[op.fileId].deleted
    ensures var e := Prepare(s, op, now, freshId).value;
      && Allocated(s, if op.newPath.Some? then op.newPath.value else op.fileId, op.fileId, e.file.path)
      && e.file == StoredFile(op.fileId, op.fileType, e.file.path, CaseFold(e.file.path),
                              op.pathClock.GetOr(PathClock(1, op.deviceId)), op.newContentVV.GetOr(map[]),
                              if op.contentHash.Some? then op.contentHash else op.blobRef, op.size, op.blobRef,
                              op.encrypted, None, false, 0, None, None)
      && e.conflictId.None? && e.conflicts == s.conflicts && e.refs == s.refs + LiveOf(op.blobRef, op.fileId)
  {
    hide Validate, UniquePath, NormalizePath, CaseFold;
  }

  /** An update, or a create of a live file: a version that covers the stored one replaces the content and
      nothing else; a concurrent one opens a conflict; any other is stale. */
  lemma UpdateLeaves(s: State, op: FileOp, file: StoredFile, freshId: string)
    requires file.fileId == op.fileId
    ensures var r, newVV := ApplyUpdate(s, op, file, freshId), op.newContentVV.GetOr(map[]);
      && (Dominates(newVV, file.contentVV) ==>
            && r.Success? && r.value.conflictId.None? && r.value.conflicts == s.conflicts
            && r.value.file == file.(contentVV := newVV, blobRef := op.blobRef, encrypted := op.encrypted,
                 deleted := false, conflictId := None, size := if op.size.Some? then op.size else file.size,
                 contentHash := if op.contentHash.Some? then op.contentHash
                                else if op.blobRef.Some? then op.blobRef else file.contentHash)
            && r.value.refs == (if file.blobRef != op.blobRef then s.refs - LiveOf(file.blobRef, op.fileId) else s.refs)
                 + LiveOf(op.blobRef, op.fileId))
      && (!Dominates(newVV, file.contentVV) && !Dominates(file.contentVV, newVV) ==>
            r.Success? && r.value.conflictId.Some? && r.value.file == file.(conflictId := r.value.conflictId))
      && (!Dominates(newVV, file.contentVV) && Dominates(file.contentVV, newVV) ==> r == Failure(Sync(STALE)))
  {
    hide Dominates, CreateConflict;
  }

  /** The record of a new conflict. */
  lemma ConflictSays(s: State, op: FileOp, file: StoredFile, freshId: string)
    requires file.fileId == op.fileId && freshId !in s.conflicts.at
    requires IsConcurrent(op.newContentVV.GetOr(map[]), file.contentVV)
    requires forall c :: c in s.conflicts.at && s.conflicts.at[c].fileId == op.fileId ==>
      s.conflicts.at[c].status.Resolved?
    ensures var r := ApplyUpdate(s, op, file, freshId);
      && r.Success? && r.value.conflictId == Some(freshId)
      && r.value.conflicts.at == s.conflicts.at[freshId :=
           ConflictRecord(op.fileId, if op.fileType.Attachment? then AttachmentConflict else ContentConflict,
                          op.contentHash, file.contentHash, if op.contentHash.Some? then op.contentHash else op.blobRef,
                          file.contentVV, op.newContentVV.GetOr(map[]), Open, None, None)]
      && r.value.refs == s.refs
           + (if Given(file.blobRef) then {ConflictSide(file.blobRef.value, freshId, Ours)} else {})
           + (if Given(op.blobRef) then {ConflictSide(op.blobRef.value, freshId, Theirs)} else {})
  {
    hide Dominates;
  }

  /** An unresolved record of the same file, kind and hashes is used again; otherwise one is added. */
  lemma EqualConflictIsReused(conflicts: OrderedMap<string, ConflictRecord>, input: ConflictRecord, freshId: string)
    ensures var (conflicts', id) := CreateConflict(conflicts, input, freshId);
      if exists c :: c in conflicts.at && EqualAndPending(conflicts.at[c], input)
      then conflicts' == conflicts && id in conflicts.at && EqualAndPending(conflicts.at[id], input)
      else id == freshId && conflicts'.at == conflicts.at[freshId := input]
  {
  }

  ghost predicate EqualAndPending(c: ConflictRecord, input: ConflictRecord) {
    && c.fileId == input.fileId && c.kind == input.kind && c.oursHash == input.oursHash
    && c.theirsHash == input.theirsHash && c.status != Resolved
  }

  /** A rename changes path and clock, and only when its clock wins; one without a valid clock is refused. */
  lemma RenameLeaves(s: State, op: FileOp, file: StoredFile)
    ensures var r := ApplyRename(s, op, file);
      var valid := op.pathClock.Some? && 0 <= op.pathClock.value.lamport <= 9007199254740991
                   && op.pathClock.value.deviceId != "";
      var wanted := if op.newPath.Some? then op.newPath.value else file.path;
      && (!valid ==> r == Failure(Sync(BAD_REQUEST)))
      && (valid && !PathClockWins(op.pathClock.value, file.pathClock) ==>
            r == Success(Effect(file, None, s.conflicts, s.refs)))
      && (valid && PathClockWins(op.pathClock.value, file.pathClock) && r.Failure? ==>
            NoPath(s, wanted, op.fileId, r.error))
      && (valid && PathClockWins(op.pathClock.value, file.pathClock) && r.Success? ==>
            var path := r.value.file.path;
            && Allocated(s, wanted, op.fileId, path)
            && r.value.conflictId.None? && r.value.conflicts == s.conflicts && r.value.refs == s.refs
            && r.value.file == file.(path := path, pathNormalized := CaseFold(path), pathClock := op.pathClock.value))
  {
    hide UniquePath, NormalizePath, CaseFold, PathClockWins;
  }

  lemma DeleteLeaves(s: State, op: FileOp, file: StoredFile)
    ensures ApplyDelete(s, op, file) ==
      Effect(file.(deleted := true,
                   deleteVV := Some(if op.newContentVV.Some? then op.newContentVV.value
                                    else if op.baseContentVV.Some? then op.baseContentVV.value else file.contentVV)),
             None, s.conflicts, s.refs)
  {
  }

  /** A restore starts the next epoch above the deletion, with the content the operation names or else the
      one the file had. */
  lemma RestoreLeaves(s: State, op: FileOp, file: StoredFile)
    requires ApplyRestore(s, op, file).Success? && file.fileId == op.fileId
    ensures var e, wanted := ApplyRestore(s, op, file).value, if op.newPath.Some? then op.newPath.value else file.path;
      && Allocated(s, wanted, op.fileId, e.file.path)
      && e.file == file.(path := e.file.path, pathNormalized := CaseFold(e.file.path), contentVV := e.file.contentVV,
           contentHash := if op.contentHash.Some? then op.contentHash else file.contentHash,
           size := if op.size.Some? then op.size else file.size,
           blobRef := if op.blobRef.Some? then op.blobRef else file.blobRef,
           encrypted := op.encrypted || file.encrypted, deleteVV := None, deleted := false, epoch := file.epoch + 1,
           conflictId := None)
      && (file.deleteVV.Some? ==> Dominates(e.file.contentVV, file.deleteVV.value))
      && Dominates(e.file.contentVV, op.newContentVV.GetOr(file.contentVV))
      && (forall vv :: Dominates(vv, file.deleteVV.GetOr(map[])) && Dominates(vv, op.newContentVV.GetOr(file.contentVV))
            ==> Dominates(vv, e.file.contentVV))
      && e.conflictId.None? && e.conflicts == s.conflicts
      && e.refs == (if file.blobRef != e.file.blobRef then s.refs - LiveOf(file.blobRef, op.fileId) else s.refs)
           + LiveOf(e.file.blobRef, op.fileId)
  {
    JoinIsLeastUpperBound(file.deleteVV.GetOr(map[]), op.newContentVV.GetOr(file.contentVV));
    hide UniquePath, NormalizePath, CaseFold, Join, Dominates;
  }
}
