/** Deleting and restoring: a restore brings back what a delete took away. */
module TrashRoundTrip {
  import opened Options
  import opened VersionVectors
  import opened Paths
  import opened Vault
  import opened VaultRuns
  import opened PathAllocation

  /** A restore that brings no content and no path of its own. */
  predicate PlainRestore(op: FileOp) {
    op.kind.Restore? && op.contentHash.None? && op.size.None? && op.blobRef.None? && !op.encrypted && op.newPath.None?
        && op.newContentVV.None?
  }

  lemma DeletedFile(s: State, op: FileOp, mayWrite: bool, now: nat, freshId: string)
    requires Commits(s, op, mayWrite, now, freshId) && op.kind.Delete? && op.fileId in s.files.at
    ensures var (file, s') := (s.files.at[op.fileId], Process(s, op, mayWrite, now, freshId).0);
      && s'.files.at == s.files.at[op.fileId :=
           file.(deleteVV := Some(op.newContentVV.OrElse(op.baseContentVV).GetOr(file.contentVV)), deleted := true)]
      && s'.conflicts == s.conflicts && s'.refs == s.refs
  {
    ProcessCases(s, op, mayWrite, now, freshId);
    hide Process, Admission, Record, StoredContent, Validate, ApplyCreate, ApplyUpdate, ApplyRename, ApplyRestore;
  }

  lemma {:induction false} RestoredFile(s: State, op: FileOp, mayWrite: bool, now: nat, freshId: string)
    requires Commits(s, op, mayWrite, now, freshId) && PlainRestore(op) && op.fileId in s.files.at
    ensures var (file, s') := (s.files.at[op.fileId], Process(s, op, mayWrite, now, freshId).0);
      && op.fileId in s'.files.at && s'.conflicts == s.conflicts
      && s'.refs == UpdatedRefs(s.refs, Some(file), s'.files.at[op.fileId])
      && NormalizePath(file.path).Some?
      && UniquePath(s.files, NormalizePath(file.path).value, op.fileId) == Some(s'.files.at[op.fileId].path)
      && s'.files.at[op.fileId]
           == file.(path := s'.files.at[op.fileId].path, pathNormalized := CaseFold(s'.files.at[op.fileId].path),
                                         contentVV := Join(file.deleteVV.GetOr(map[]), file.contentVV),
                                         deleteVV := None, deleted := false, epoch := file.epoch + 1,
                                             conflictId := None)
  {
    ProcessCases(s, op, mayWrite, now, freshId);
    hide Process, Admission, Record, StoredContent, Validate, ApplyCreate, ApplyUpdate, ApplyRename, UniquePath,
         NormalizePath, CaseFold, UpdatedRefs, Join;
  }

  lemma SameRefs(refs: set<BlobRef>, file: StoredFile, file': StoredFile)
    requires file'.blobRef == file.blobRef && file'.fileId == file.fileId && LiveRef(file) <= refs
    ensures UpdatedRefs(refs, Some(file), file') == refs
  {
  }

  lemma SameFolded(files: map<string, StoredFile>, files': map<string, StoredFile>, f: string, path: string)
    requires forall g :: g != f ==> (g in files <==> g in files') && (g in files ==> files[g] == files'[g])
    ensures Occupied(files, path, f) <==> Occupied(files', path, f)
  {
    hide CaseFold;
  }

  /** Deleting a live file and restoring it gives back the same content, type, references and path
      clock, live and unfrozen, one epoch on, under a version that dominates both the one before the
      deletion and the deletion's own; and under the same path, since nobody took it. */
  lemma {:induction false} RestoreUndoesDelete(s: State, del: FileOp, mayWrite: bool, now: nat, freshId: string,
          res: FileOp, mayWrite': bool, now': nat, freshId': string)
    requires PathsFine(s) && del.fileId in s.files.at && !s.files.at[del.fileId].deleted
    requires Canonical(s.files.at[del.fileId].path)
    requires LiveRef(s.files.at[del.fileId]) <= s.refs
    requires del.kind.Delete? && Commits(s, del, mayWrite, now, freshId)
    requires PlainRestore(res) && res.fileId == del.fileId
    requires Commits(Process(s, del, mayWrite, now, freshId).0, res, mayWrite', now', freshId')
    ensures var s1 := Process(s, del, mayWrite, now, freshId).0;
      var s2 := Process(s1, res, mayWrite', now', freshId').0;
      && del.fileId in s1.files.at && s1.files.at[del.fileId].deleted && s1.files.at[del.fileId].deleteVV.Some?
      && del.fileId in s2.files.at
      && var (before, after) := (s.files.at[del.fileId], s2.files.at[del.fileId]);
         && after == before.(contentVV := after.contentVV, deleteVV := None, epoch := before.epoch + 1,
                             conflictId := None)
         && Dominates(after.contentVV, before.contentVV)
         && Dominates(after.contentVV, s1.files.at[del.fileId].deleteVV.value)
         && s2.refs == s.refs && s2.conflicts == s.conflicts
         && forall g :: g != del.fileId ==>
              (g in s2.files.at <==> g in s.files.at) && (g in s.files.at ==> s2.files.at[g] == s.files.at[g])
  {
    var f := del.fileId;
    var s1 := Process(s, del, mayWrite, now, freshId).0;
    DeletedFile(s, del, mayWrite, now, freshId);
    RestoredFile(s1, res, mayWrite', now', freshId');
    OthersStay(s1, res, mayWrite', now', freshId');
    hide Process, Commits;
    var s2 := Process(s1, res, mayWrite', now', freshId').0;
    var before, gone, after := s.files.at[f], s1.files.at[f], s2.files.at[f];
    JoinIsLeastUpperBound(gone.deleteVV.GetOr(map[]), gone.contentVV);
    SameRefs(s1.refs, gone, after);
    OwnPath(s, f);
    SameFolded(s.files.at, s1.files.at, f, before.path);
    assert Keyed(s1.files.at);
    hide Occupied, CaseFold, NormalizePath, UniquePath, Join, Dominates, UpdatedRefs;
    FreePathIsKept(s1.files, before.path, f);
  }

  lemma OthersStay(s: State, op: FileOp, mayWrite: bool, now: nat, freshId: string)
    ensures forall g :: g != op.fileId ==>
      (g in Process(s, op, mayWrite, now, freshId).0.files.at <==> g in s.files.at)
      && (g in s.files.at ==> Process(s, op, mayWrite, now, freshId).0.files.at[g] == s.files.at[g])
  {
    ProcessCases(s, op, mayWrite, now, freshId);
    hide Process, Prepare, Admission, Record, StoredContent;
  }
}
