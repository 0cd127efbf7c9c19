/** References to blobs: what operations, resolutions and the other requests do to them, and that each
    blob in use stays referenced. */
module BlobReferences {
  import opened Options
  import opened VersionVectors
  import opened Paths
  import opened Vault
  import opened VaultRuns
  import opened ConflictFreeze

  type Blobs = map<Hash, BlobRecord>

  ghost predicate IsVerified(blobs: Blobs, hash: Hash) {
    hash in blobs && blobs[hash].state.Verified?
  }

  /** Every file's blob has its reference. */
  ghost predicate LiveHeld(files: Files, refs: set<BlobRef>) {
    forall f :: f in files && Present(files[f].blobRef) ==> FileLive(files[f].blobRef.value, f) in refs
  }

  /** The blob of a frozen file has the reference of the pending conflict's "ours" side. */
  ghost predicate OursHeld(files: Files, refs: set<BlobRef>) {
    forall f :: f in files && files[f].conflictId.Some? && Present(files[f].blobRef) ==>
      ConflictSide(files[f].blobRef.value, files[f].conflictId.value, Ours) in refs
  }

  /** The log entry opened conflict c with a blob on its own side. */
  predicate OpenedWithBlob(entry: StoredOp, c: string) {
    entry.result.Ack? && entry.result.conflictId == Some(c) && Present(entry.payload.blobRef)
  }

  /** The blob brought by the operation that opened a pending conflict has its reference. */
  ghost predicate TheirsHeld(log: seq<StoredOp>, conflicts: Conflicts, refs: set<BlobRef>) {
    forall i, c :: 0 <= i < |log| && OpenedWithBlob(log[i], c) && c in conflicts && !conflicts[c].status.Resolved? ==>
      ConflictSide(log[i].payload.blobRef.value, c, Theirs) in refs
  }

  ghost predicate ConflictsKnown(log: seq<StoredOp>, conflicts: Conflicts) {
    forall i, c :: 0 <= i < |log| && OpenedWithBlob(log[i], c) ==> c in conflicts
  }

  ghost predicate RefsVerified(refs: set<BlobRef>, blobs: Blobs) {
    forall r :: r in refs ==> IsVerified(blobs, r.hash)
  }

  ghost predicate BlobsHeld(s: State) {
    && Freeze(s.files.at, s.conflicts.at)
    && LiveHeld(s.files.at, s.refs) && OursHeld(s.files.at, s.refs)
    && TheirsHeld(s.journal.log, s.conflicts.at, s.refs) && ConflictsKnown(s.journal.log, s.conflicts.at)
  }

  // ---- references written by an operation ----

  /** References of the file other than its own live reference survive. */
  ghost predicate KeepsOtherRefs(refs: set<BlobRef>, refs': set<BlobRef>, fileId: string) {
    forall r :: r in refs && !(r.FileLive? && r.fileId == fileId) ==> r in refs'
  }

  ghost predicate AddsOnly(refs: set<BlobRef>, refs': set<BlobRef>, added: set<BlobRef>) {
    forall r :: r in refs' ==> r in refs || r in added
  }

  lemma OverwriteRefs(s: State, op: FileOp, now: nat, freshId: string)
    requires Keyed(s.files.at) && LiveHeld(s.files.at, s.refs) && Prepare(s, op, now, freshId).Success?
    requires Overwrites(s, op, Prepare(s, op, now, freshId).value)
    ensures var e := Prepare(s, op, now, freshId).value;
      && KeepsOtherRefs(s.refs, e.refs, op.fileId) && AddsOnly(s.refs, e.refs, LiveRef(e.file))
      && LiveRef(e.file) <= e.refs
      && (e.file.blobRef == op.blobRef
          || (e.file.blobRef == (if op.fileId in s.files.at then s.files.at[op.fileId].blobRef else None)
                && !Present(op.blobRef)))
  {
    hide UniquePath, NormalizePath, Dominates, Join, CaseFold, Validate, CreateConflict;
  }

  lemma CollideRefs(s: State, op: FileOp, now: nat, freshId: string)
    requires Prepare(s, op, now, freshId).Success? && Collides(s, op, Prepare(s, op, now, freshId).value, freshId)
    ensures var e := Prepare(s, op, now, freshId).value;
      e.refs == s.refs + SideRef(s.files.at[op.fileId].blobRef, e.conflictId.value, Ours)
      + SideRef(op.blobRef, e.conflictId.value, Theirs)
  {
    hide UniquePath, NormalizePath, Dominates, Join, CaseFold, Validate, CreateConflict, UpdatedRefs, SideRef;
  }

  lemma ValidatedBlob(s: State, op: FileOp, now: nat, freshId: string)
    requires Prepare(s, op, now, freshId).Success? && ContentKind(op.kind) && Present(op.contentHash)
    requires Present(op.blobRef)
    ensures IsVerified(s.blobs.at, op.blobRef.value)
  {
    hide Apply, ValidateShape, ValidateHash;
  }

  // ---- the journal side ----

  lemma CommitLog(s: State, op: FileOp, e: Effect)
    ensures forall x :: x in Commit(s, op, e).journal.log ==> x in s.journal.log || x == EntryOf(s.journal, op, e)
  {
    InsertMembers(s.journal.log, EntryOf(s.journal, op, e));
  }

  lemma {:induction false} InsertMembers(log: seq<StoredOp>, entry: StoredOp)
    ensures forall x :: x in InsertBySeq(log, entry) ==> x in log || x == entry
  {
    if |log| > 0 && log[|log| - 1].vaultSeq > entry.vaultSeq {
      InsertMembers(log[..|log| - 1], entry);
    }
  }

  lemma TheirsAfter(log: seq<StoredOp>, log': seq<StoredOp>, entry: StoredOp, conflicts: Conflicts,
          conflicts': Conflicts, refs: set<BlobRef>, refs': set<BlobRef>, fileId: string)
    requires TheirsHeld(log, conflicts, refs) && ConflictsKnown(log, conflicts) && KeepsOtherRefs(refs, refs', fileId)
    requires forall x :: x in log' ==> x in log || x == entry
    requires forall c :: c in conflicts ==>
      c in conflicts' && (conflicts[c].status.Resolved? ==> conflicts'[c].status.Resolved?)
    requires forall c :: OpenedWithBlob(entry, c) ==>
      c in conflicts' && ConflictSide(entry.payload.blobRef.value, c, Theirs) in refs'
    ensures TheirsHeld(log', conflicts', refs') && ConflictsKnown(log', conflicts')
  {
    forall i, c | 0 <= i < |log'| && OpenedWithBlob(log'[i], c)
      ensures c in conflicts'
      ensures !conflicts'[c].status.Resolved? ==> ConflictSide(log'[i].payload.blobRef.value, c, Theirs) in refs'
    {
      if log'[i] != entry {
        assert log'[i] in log;
      }
    }
  }

  // ---- the file side ----

  lemma FilesAfter(files: Files, refs: set<BlobRef>, file: StoredFile, refs': set<BlobRef>)
    requires LiveHeld(files, refs) && OursHeld(files, refs) && KeepsOtherRefs(refs, refs', file.fileId)
    requires LiveRef(file) <= refs'
    requires file.conflictId.Some? ==> SideRef(file.blobRef, file.conflictId.value, Ours) <= refs'
    ensures LiveHeld(files[file.fileId := file], refs') && OursHeld(files[file.fileId := file], refs')
  {
  }

  /** References, marks and conflicts after the operation still fit together. */
  ghost predicate RefsFollow(s: State, op: FileOp, e: Effect) {
    && e.file.fileId == op.fileId && KeepsOtherRefs(s.refs, e.refs, op.fileId)
    && LiveRef(e.file) <= e.refs
    && (e.file.conflictId.Some? ==> SideRef(e.file.blobRef, e.file.conflictId.value, Ours) <= e.refs)
    && (e.conflictId.Some? ==>
          e.conflictId.value in e.conflicts.at && SideRef(op.blobRef, e.conflictId.value, Theirs) <= e.refs)
    && (forall c :: c in s.conflicts.at ==> c in e.conflicts.at && e.conflicts.at[c] == s.conflicts.at[c])
  }

  lemma CollideFollows(s: State, op: FileOp, now: nat, freshId: string)
    requires BlobsHeld(s) && Prepare(s, op, now, freshId).Success? && freshId !in s.conflicts.at
    requires Collides(s, op, Prepare(s, op, now, freshId).value, freshId) && s.files.at[op.fileId].conflictId.None?
    ensures RefsFollow(s, op, Prepare(s, op, now, freshId).value)
  {
    CollideRefs(s, op, now, freshId);
    FreshConflict(s, op, freshId);
    hide Prepare, TheirsHeld, ConflictsKnown, CreateConflict;
  }

  lemma OverwriteFollows(s: State, op: FileOp, now: nat, freshId: string)
    requires BlobsHeld(s) && Prepare(s, op, now, freshId).Success?
    requires Overwrites(s, op, Prepare(s, op, now, freshId).value)
    ensures RefsFollow(s, op, Prepare(s, op, now, freshId).value)
  {
    OverwriteRefs(s, op, now, freshId);
    hide Prepare, TheirsHeld, ConflictsKnown;
  }

  lemma RelabelFollows(s: State, op: FileOp, e: Effect)
    requires BlobsHeld(s) && Relabels(s, op, e)
    ensures RefsFollow(s, op, e)
  {
  }

  lemma {:induction false} CommitFollows(s: State, op: FileOp, now: nat, freshId: string)
    requires BlobsHeld(s) && Prepare(s, op, now, freshId).Success? && freshId !in s.conflicts.at
    ensures RefsFollow(s, op, Prepare(s, op, now, freshId).value)
  {
    EffectCases(s, op, now, freshId);
    var e := Prepare(s, op, now, freshId).value;
    hide Prepare, RefsFollow, LiveHeld, OursHeld, TheirsHeld, ConflictsKnown;
    if Relabels(s, op, e) {
      RelabelFollows(s, op, e);
    } else if Collides(s, op, e, freshId) {
      assert s.files.at[op.fileId].conflictId.None?;
      CollideFollows(s, op, now, freshId);
    } else {
      OverwriteFollows(s, op, now, freshId);
    }
  }

  lemma {:induction false} CommitKeepsHeld(s: State, op: FileOp, now: nat, freshId: string)
    requires BlobsHeld(s) && Prepare(s, op, now, freshId).Success? && freshId !in s.conflicts.at && freshId != ""
    ensures BlobsHeld(Commit(s, op, Prepare(s, op, now, freshId).value))
  {
    var e := Prepare(s, op, now, freshId).value;
    CommitKeepsFreeze(s, op, now, freshId);
    CommitFollows(s, op, now, freshId);
    FilesAfter(s.files.at, s.refs, e.file, e.refs);
    CommitLog(s, op, e);
    TheirsAfter(s.journal.log, Commit(s, op, e).journal.log, EntryOf(s.journal, op, e), s.conflicts.at, e.conflicts.at,
                s.refs, e.refs, op.fileId);
    hide Prepare, Record, Freeze, LiveHeld, OursHeld, TheirsHeld, ConflictsKnown, RefsFollow, StoredContent;
  }

  // ---- verified references ----

  /** After an accepted operation the references are verified exactly when the blob it names is. */
  lemma CommitVerified(s: State, op: FileOp, now: nat, freshId: string)
    requires BlobsHeld(s) && RefsVerified(s.refs, s.blobs.at) && Prepare(s, op, now, freshId).Success?
    requires freshId !in s.conflicts.at
    ensures RefsVerified(Prepare(s, op, now, freshId).value.refs, s.blobs.at) <==>
      (ContentKind(op.kind) && Present(op.blobRef) ==> IsVerified(s.blobs.at, op.blobRef.value))
  {
    EffectCases(s, op, now, freshId);
    var e := Prepare(s, op, now, freshId).value;
    hide TheirsHeld, ConflictsKnown, OursHeld, Freeze, IsVerified;
    if Collides(s, op, e, freshId) {
      CollideRefs(s, op, now, freshId);
      hide Prepare, CreateConflict;
      AddedVerified(s.refs, e.refs, s.blobs.at,
                    SideRef(s.files.at[op.fileId].blobRef, e.conflictId.value, Ours)
                        + SideRef(op.blobRef, e.conflictId.value, Theirs));
      assert Present(s.files.at[op.fileId].blobRef) ==>
        FileLive(s.files.at[op.fileId].blobRef.value, op.fileId) in s.refs;
    } else if Overwrites(s, op, e) {
      HeldKeyed(s);
      OverwriteRefs(s, op, now, freshId);
      hide Prepare;
      AddedVerified(s.refs, e.refs, s.blobs.at, LiveRef(e.file));
      if op.fileId in s.files.at && Present(s.files.at[op.fileId].blobRef) {
        assert FileLive(s.files.at[op.fileId].blobRef.value, op.fileId) in s.refs;
      }
    } else {
      hide Prepare;
    }
  }

  lemma HeldKeyed(s: State)
    requires BlobsHeld(s)
    ensures Keyed(s.files.at)
  {
  }

  lemma AddedVerified(refs: set<BlobRef>, refs': set<BlobRef>, blobs: Blobs, added: set<BlobRef>)
    requires RefsVerified(refs, blobs) && AddsOnly(refs, refs', added) && added <= refs'
    ensures RefsVerified(refs', blobs) <==> forall r :: r in added ==> IsVerified(blobs, r.hash)
  {
  }

  // ---- the other requests ----

  /** References other than the file's live one and the sides of the settled conflict survive. */
  ghost predicate KeepsRefsBut(refs: set<BlobRef>, refs': set<BlobRef>, fileId: string, conflictId: string) {
    forall r :: r in refs ==>
      (r.FileLive? && r.fileId == fileId) || (r.ConflictSide? && r.conflictId == conflictId) || r in refs'
  }

  lemma ResolveRefs(s: State, input: ResolveInput, mayWrite: bool)
    requires Keyed(s.files.at) && Resolve(s, input, mayWrite).0 != s
    ensures var s' := Resolve(s, input, mayWrite).0;
      && input.conflictId in s.conflicts.at && s.conflicts.at[input.conflictId].fileId in s'.files.at
      && s'.journal == s.journal && s'.blobs == s.blobs
      && var file := s'.files.at[s.conflicts.at[input.conflictId].fileId];
         && file.fileId == s.conflicts.at[input.conflictId].fileId
         && KeepsRefsBut(s.refs, s'.refs, file.fileId, input.conflictId) && AddsOnly(s.refs, s'.refs, LiveRef(file))
         && LiveRef(file) <= s'.refs
         && (Present(file.blobRef) ==> IsVerified(s.blobs.at, file.blobRef.value))
  {
    hide JoinedVV, HasContent, ByteLength;
  }

  lemma SettledRefs(s: State, input: ResolveInput, s': State, file: StoredFile, record: ConflictRecord)
    requires BlobsHeld(s) && input.conflictId in s.conflicts.at && !s.conflicts.at[input.conflictId].status.Resolved?
    requires record.status.Resolved? && s'.journal == s.journal
    requires s'.conflicts.at == s.conflicts.at[input.conflictId := record]
    requires s'.files.at == s.files.at[file.fileId := file]
    requires s.conflicts.at[input.conflictId].fileId == file.fileId && file.conflictId.None?
    requires KeepsRefsBut(s.refs, s'.refs, file.fileId, input.conflictId) && LiveRef(file) <= s'.refs
    ensures LiveHeld(s'.files.at, s'.refs) && OursHeld(s'.files.at, s'.refs)
    ensures TheirsHeld(s'.journal.log, s'.conflicts.at, s'.refs) && ConflictsKnown(s'.journal.log, s'.conflicts.at)
  {
  }

  lemma {:induction false} ResolveKeepsHeld(s: State, input: ResolveInput, mayWrite: bool)
    requires BlobsHeld(s) && RefsVerified(s.refs, s.blobs.at)
    ensures var s' := Resolve(s, input, mayWrite).0; BlobsHeld(s') && RefsVerified(s'.refs, s'.blobs.at)
  {
    var (s', r) := Resolve(s, input, mayWrite);
    if s' != s {
      ResolveKeepsFreeze(s, input, mayWrite);
      ResolveCases(s, input, mayWrite);
      HeldKeyed(s);
      ResolveRefs(s, input, mayWrite);
      hide Resolve, JoinedVV, BlobsHeld, KeepsRefsBut, AddsOnly, RefsVerified, IsVerified;
      var file := s'.files.at[s.conflicts.at[input.conflictId].fileId];
      SettledRefs(s, input, s', file, r.conflict);
      AddedVerified(s.refs, s'.refs, s.blobs.at, LiveRef(file));
      HeldTogether(s');
    }
  }

  lemma HeldTogether(s: State)
    requires Freeze(s.files.at, s.conflicts.at)
    requires LiveHeld(s.files.at, s.refs) && OursHeld(s.files.at, s.refs)
    requires TheirsHeld(s.journal.log, s.conflicts.at, s.refs) && ConflictsKnown(s.journal.log, s.conflicts.at)
    ensures BlobsHeld(s)
  {
  }

  /** Claiming and releasing change at most one unresolved record, into an unresolved one. */
  lemma ClaimShape(s: State, e: Event)
    requires e.ClaimConflict? || e.ReleaseConflict?
    ensures var s' := OtherStep(s, e);
      && s' == s.(conflicts := s'.conflicts) && s'.conflicts.at.Keys == s.conflicts.at.Keys
      && forall c :: c in s.conflicts.at && !s'.conflicts.at[c].status.Resolved? ==> !s.conflicts.at[c].status.Resolved?
  {
  }

  lemma {:induction false} ClaimsKeepHeld(s: State, e: Event)
    requires BlobsHeld(s) && (e.ClaimConflict? || e.ReleaseConflict?)
    ensures var s' := OtherStep(s, e); BlobsHeld(s') && s'.refs == s.refs && s'.blobs == s.blobs
  {
    ClaimsKeepFreeze(s, e);
    ClaimShape(s, e);
    hide Freeze, LiveHeld, OursHeld, OtherStep;
  }

  lemma LeaseKeepsHeld(s: State, fileId: string, until: Option<nat>)
    requires BlobsHeld(s)
    ensures var s' := SetActive(s, fileId, until); BlobsHeld(s') && s'.refs == s.refs && s'.blobs == s.blobs
  {
    LeaseKeepsFreeze(s, fileId, until);
    HeldKeyed(s);
    hide Freeze;
    if fileId in s.files.at {
      FilesAfter(s.files.at, s.refs, s.files.at[fileId].(activeUntil := until), s.refs);
    }
    hide LiveHeld, OursHeld, TheirsHeld, ConflictsKnown;
  }

  /** Uploads and garbage collection leave every referenced, verified blob as it is. */
  lemma BlobEventsKeepVerified(s: State, e: Event)
    requires RefsVerified(s.refs, s.blobs.at) && (e.UploadInit? || e.UploadComplete? || e.CollectGarbage?)
    ensures RefsVerified(s.refs, OtherStep(s, e).blobs.at)
  {
    var s' := OtherStep(s, e);
    forall r | r in s.refs ensures IsVerified(s'.blobs.at, r.hash) {
      assert IsVerified(s.blobs.at, r.hash) && Referenced(s.refs, r.hash);
    }
  }

  lemma BlobEventsKeepRest(s: State, e: Event)
    requires e.UploadInit? || e.UploadComplete? || e.CollectGarbage? || e.Register? || e.Revoke?
    ensures var s' := OtherStep(s, e);
      s'.files == s.files && s'.conflicts == s.conflicts && s'.refs == s.refs && s'.journal.log == s.journal.log
      && (e.Register? || e.Revoke? ==> s'.blobs == s.blobs)
  {
  }

  ghost predicate BlobSafe(s: State) {
    BlobsHeld(s) && RefsVerified(s.refs, s.blobs.at)
  }
}
