/** The in-memory store (packages/server/src/engine/store.ts), the operation processor
    (packages/server/src/engine/op-processor.ts), the conflict service
    (packages/server/src/engine/conflict.ts) and the blob store (packages/server/src/blob/store.ts),
    which change the store's maps in place, proved to do exactly what the state machine says. */
module VaultStore {
  import opened Options
  import opened OrderedMaps
  import opened VersionVectors
  import opened PathClocks
  import opened Paths
  import opened Vault
  import opened VaultRuns

  class InMemoryDataStore {
    var devices: map<string, StoredDevice>
    var files: OrderedMap<string, StoredFile>
    var opsById: map<OpId, StoredOp>
    var opsByDeviceSeq: map<(string, int), StoredOp>
    var opsByVault: seq<StoredOp>
    var blobs: OrderedMap<Hash, BlobRecord>
    var blobRefs: set<BlobRef>
    var conflicts: OrderedMap<string, ConflictRecord>
    var content: map<Hash, string>
    var outbox: seq<AppliedOp>
    var seqs: nat

    ghost function Journal(): Journal
      reads this
    {
      Vault.Journal(devices, opsByVault, opsById, opsByDeviceSeq, seqs, outbox)
    }

    ghost function Abs(): State
      reads this
    {
      State(Journal(), files, conflicts, blobs, blobRefs, content)
    }

    /** Files are stored under their own ids. */
    ghost predicate Valid()
      reads this
    {
      Keyed(files.at)
    }

    constructor ()
      ensures Valid() && Abs() == Initial
    {
      devices, files, opsById, opsByDeviceSeq, opsByVault := map[], Empty(), map[], map[], [];
      blobs, blobRefs, conflicts, content, outbox, seqs := Empty(), {}, Empty(), map[], [], 1;
    }

    method SaveDevice(deviceId: string, device: StoredDevice)
      modifies this`devices
      ensures devices == old(devices)[deviceId := device]
    {
      devices := devices[deviceId := device];
    }

    method SaveFile(file: StoredFile)
      modifies this`files
      ensures files == Set(old(files), file.fileId, file)
    {
      files := Set(files, file.fileId, file);
    }

    /** The first live file, in the order of the map, at the folded path. */
    method FindLiveFile(folded: string) returns (hit: Option<string>)
      ensures hit == FindLiveFileByPath(files, folded)
    {
      var test := (f: StoredFile) => LiveAt(f, folded);
      for i := 0 to |files.order|
        invariant FirstKey(files.order[i..], files.at, test) == FirstKey(files.order, files.at, test)
      {
        var k := files.order[i];
        assert files.order[i..][1..] == files.order[i + 1..];
        if k in files.at && LiveAt(files.at[k], folded) {
          return Some(k);
        }
      }
      return None;
    }

    method NextVaultSeq() returns (next: nat)
      modifies this`seqs
      ensures next == old(seqs) && seqs == old(seqs) + 1
    {
      next := seqs;
      seqs := next + 1;
    }

    /** The list is kept sorted by sequence number. */
    method AppendOp(op: StoredOp)
      modifies this`opsById, this`opsByDeviceSeq, this`opsByVault
      ensures opsById == old(opsById)[op.opId := op]
      ensures opsByDeviceSeq == old(opsByDeviceSeq)[(op.deviceId, op.deviceSeq) := op]
      ensures opsByVault == InsertBySeq(old(opsByVault), op)
    {
      opsById := opsById[op.opId := op];
      opsByDeviceSeq := opsByDeviceSeq[(op.deviceId, op.deviceSeq) := op];
      var place := |opsByVault|;
      assert opsByVault[..place] == opsByVault && InsertBySeq(opsByVault, op) + [] == InsertBySeq(opsByVault, op);
      while place > 0 && opsByVault[place - 1].vaultSeq > op.vaultSeq
        invariant 0 <= place <= |opsByVault|
        invariant InsertBySeq(opsByVault[..place], op) + opsByVault[place..] == InsertBySeq(opsByVault, op)
      {
        place := place - 1;
        assert opsByVault[..place + 1][..place] == opsByVault[..place];
        assert opsByVault[place..] == [opsByVault[place]] + opsByVault[place + 1..];
        assert InsertBySeq(opsByVault[..place + 1], op) == InsertBySeq(opsByVault[..place], op) + [opsByVault[place]];
      }
      opsByVault := opsByVault[..place] + [op] + opsByVault[place..];
    }

    method AppendOutbox(vaultSeq: nat, payload: AppliedOp)
      requires payload.vaultSeq == vaultSeq
      modifies this`outbox
      ensures outbox == old(outbox) + [payload]
    {
      outbox := outbox + [payload];
    }

    method SaveBlob(hash: Hash, blob: BlobRecord)
      modifies this`blobs
      ensures blobs == Set(old(blobs), hash, blob)
    {
      blobs := Set(blobs, hash, blob);
    }

    method AddBlobRef(r: BlobRef)
      modifies this`blobRefs
      ensures blobRefs == old(blobRefs) + {r}
    {
      blobRefs := blobRefs + {r};
    }

    method RemoveBlobRef(r: BlobRef)
      modifies this`blobRefs
      ensures blobRefs == old(blobRefs) - {r}
    {
      blobRefs := blobRefs - {r};
    }

    /** Reuses the first equal unresolved record, or adds a new one under the drawn id. */
    method AddConflict(input: ConflictRecord, freshId: string) returns (id: string)
      modifies this`conflicts
      ensures (conflicts, id) == CreateConflict(old(conflicts), input, freshId)
    {
      var test := (c: ConflictRecord) => SameConflict(c, input);
      for i := 0 to |conflicts.order|
        invariant conflicts == old(conflicts)
        invariant FirstKey(conflicts.order[i..], conflicts.at, test) == FirstKey(conflicts.order, conflicts.at, test)
      {
        var k := conflicts.order[i];
        assert conflicts.order[i..][1..] == conflicts.order[i + 1..];
        if k in conflicts.at && SameConflict(conflicts.at[k], input) {
          return k;
        }
      }
      conflicts := Set(conflicts, freshId, input);
      return freshId;
    }

    /** Replaces the record if its status and claim are still the expected ones. */
    method CompareAndSetConflict(id: string, conflict: ConflictRecord, status: ConflictStatus,
            claimedBy: Option<string>) returns (ok: bool)
      modifies this`conflicts
      ensures ok == (id in old(conflicts).at && old(conflicts).at[id].status == status
        && old(conflicts).at[id].claimedBy == claimedBy)
      ensures conflicts == if ok then Set(old(conflicts), id, conflict) else old(conflicts)
    {
      if id !in conflicts.at { return false; }
      if conflicts.at[id].status != status { return false; }
      if conflicts.at[id].claimedBy != claimedBy { return false; }
      conflicts := Set(conflicts, id, conflict);
      return true;
    }

    method PutContent(hash: Hash, text: string)
      modifies this`content
      ensures content == old(content)[hash := text]
    {
      content := content[hash := text];
    }
  }

  class OpProcessor {
    const store: InMemoryDataStore

    constructor (store: InMemoryDataStore)
      ensures this.store == store
    {
      this.store := store;
    }

    method Process(op: FileOp, mayWrite: bool, now: nat, freshId: string) returns (result: OpResult)
      requires store.Valid()
      modifies store
      ensures store.Valid()
      ensures (store.Abs(), result) == Vault.Process(old(store.Abs()), op, mayWrite, now, freshId)
    {
      if op.opId in store.opsById { return store.opsById[op.opId].result; }
      var syntheticCollab := op.deviceId == "collab:" + op.fileId;
      if !syntheticCollab {
        if op.deviceId !in store.devices { return Reject(op.opId, UNAUTHENTICATED, None); }
        var device := store.devices[op.deviceId];
        if device.revoked { return Reject(op.opId, DEVICE_REVOKED, None); }
        if !mayWrite { return Reject(op.opId, FORBIDDEN, None); }
        var expected := device.lastDeviceSeq + 1;
        if op.deviceSeq < expected {
          if (op.deviceId, op.deviceSeq) in store.opsByDeviceSeq {
            return store.opsByDeviceSeq[(op.deviceId, op.deviceSeq)].result;
          }
          return Reject(op.opId, STALE, Some(expected));
        }
        if op.deviceSeq > expected { return Reject(op.opId, SEQ_GAP, Some(expected)); }
      }
      assert Admission(old(store.Abs()).journal, op, mayWrite).None?;
      hide Admission, Prepare, StoredContent, Record;
      var prepared := TryApply(op, now, freshId);
      if prepared.Failure? {
        if prepared.error.PathError? { return Thrown; }
        return Reject(op.opId, prepared.error.code, None);
      }
      var (file, conflictId) := prepared.value;
      EffectCases(old(store.Abs()), op, now, freshId);
      result := Append(op, file, conflictId, syntheticCollab);
    }

    /** Validation, the freezes and the change itself, up to the number the operation will get. */
    method TryApply(op: FileOp, now: nat, freshId: string) returns (r: Result<(StoredFile, Option<string>), Failure>)
      modifies store`content, store`conflicts, store`blobRefs
      ensures store.content == StoredContent(old(store.content), op)
      ensures Prepared(old(store.Abs()), op, now, freshId, r, store.conflicts, store.blobRefs)
    {
      hide UniquePath, Dominates, Join, IsConcurrent, CreateConflict, UpdatedRefs, SideRef, NormalizePath;
      var invalid := ValidatePayload(op);
      hide Validate, StoredContent;
      if invalid.Some? { return Failure(invalid.value); }
      var file := Lookup(store.files, op.fileId);
      var contentOp := op.kind == Create || op.kind == Update || op.kind == Restore;
      if !Synthetic(op) && file.Some? && file.value.activeUntil.Some? && file.value.activeUntil.value > now && contentOp
      {
        return Failure(Sync(FILE_ACTIVE));
      }
      if file.Some? && PresentText(file.value.conflictId) && contentOp { return Failure(Sync(CONFLICT_PENDING)); }
      if op.kind == Create {
        r := ApplyCreate(op, file, freshId);
        return;
      }
      if file.None? { return Failure(Sync(NOT_FOUND)); }
      match op.kind {
        case Update => r := ApplyUpdate(op, file.value, freshId);
        case Rename => r := ApplyRename(op, file.value);
        case Delete => r := ApplyDelete(op, file.value);
        case Restore => r := ApplyRestore(op, file.value);
      }
    }

    method ValidatePayload(op: FileOp) returns (invalid: Option<Failure>)
      modifies store`content
      ensures invalid == Validate(old(store.Abs()), op)
      ensures store.content == StoredContent(old(store.content), op)
    {
      hide NormalizePath;
      if op.opId == Uuid("") || op.deviceId == "" || op.fileId == "" || op.deviceSeq > MAX_SAFE_INTEGER
          || op.deviceSeq < 1
      {
        return Some(Sync(BAD_REQUEST));
      }
      if (op.kind == Create || op.kind == Rename) && !PresentText(op.newPath) { return Some(Sync(ILLEGAL_PATH)); }
      if PresentText(op.newPath) && NormalizePath(op.newPath.value).None? { return Some(PathError); }
      if (op.kind == Create || op.kind == Update || op.kind == Restore) && Present(op.contentHash) {
        var hash := op.contentHash.value;
        if !hash.Digest? { return Some(Sync(BAD_REQUEST)); }
        if op.encrypted && op.inlineText.Some? { return Some(Sync(BAD_REQUEST)); }
        if op.encrypted && !Present(op.blobRef) && hash !in store.content { return Some(Sync(BAD_REQUEST)); }
        if op.inlineText.Some? {
          if Digest(op.inlineText.value) != hash { return Some(Sync(BLOB_HASH_MISMATCH)); }
          store.PutContent(hash, op.inlineText.value);
        }
        if Present(op.blobRef) {
          var blob := Lookup(store.blobs, op.blobRef.value);
          if blob.None? || blob.value.state != Verified || op.size.None? || blob.value.size != op.size.value {
            return Some(Sync(BLOB_MISSING));
          }
        }
      }
      return None;
    }

    method UniquePathFor(desired: string, fileId: string) returns (path: Option<string>)
      ensures path == UniquePath(store.files, desired, fileId)
    {
      hide CaseFold, SuffixPath;
      var candidate := desired;
      var n := 2;
      while n < 10_000
        invariant 2 <= n <= 10_000 && candidate == Candidate(desired, n - 2)
        invariant FirstFree(store.files, desired, fileId, n - 2) == UniquePath(store.files, desired, fileId)
      {
        var collision := store.FindLiveFile(CaseFold(candidate));
        if collision.None? || store.files.at[collision.value].fileId == fileId { return Some(candidate); }
        candidate := SuffixPath(desired, n);
        n := n + 1;
      }
      return None;
    }

    method UpdateBlobRefs(oldFile: Option<StoredFile>, newFile: StoredFile)
      modifies store`blobRefs
      ensures store.blobRefs == UpdatedRefs(old(store.blobRefs), oldFile, newFile)
    {
      if oldFile.Some? && Present(oldFile.value.blobRef) && oldFile.value.blobRef != newFile.blobRef {
        store.RemoveBlobRef(FileLive(oldFile.value.blobRef.value, oldFile.value.fileId));
      }
      if Present(newFile.blobRef) {
        store.AddBlobRef(FileLive(newFile.blobRef.value, newFile.fileId));
      }
    }

    method AddConflictRefs(conflictId: string, ours: Option<Hash>, theirs: Option<Hash>)
      modifies store`blobRefs
      ensures store.blobRefs == old(store.blobRefs) + SideRef(ours, conflictId, Ours)
        + SideRef(theirs, conflictId, Theirs)
    {
      if Present(ours) { store.AddBlobRef(ConflictSide(ours.value, conflictId, Ours)); }
      if Present(theirs) { store.AddBlobRef(ConflictSide(theirs.value, conflictId, Theirs)); }
    }

    method ApplyCreate(op: FileOp, existing: Option<StoredFile>,
            freshId: string) returns (r: Result<(StoredFile, Option<string>), Failure>)
      modifies store`conflicts, store`blobRefs
      ensures Matches(Vault.ApplyCreate(old(store.Abs()), op, existing, freshId), r, old(store.Abs()), store.conflicts,
                      store.blobRefs)
    {
      hide UniquePath, NormalizePath, CaseFold, UpdatedRefs, Dominates;
      if existing.Some? && !existing.value.deleted {
        r := ApplyUpdate(op, existing.value, freshId);
        return;
      }
      var wanted := NormalizePath(op.newPath.GetOr(op.fileId));
      if wanted.None? { return Failure(PathError); }
      var path := UniquePathFor(wanted.value, op.fileId);
      if path.None? { return Failure(Sync(ILLEGAL_PATH)); }
      var file := NewStoredFile(op, path.value, op.pathClock.GetOr(PathClock(1, op.deviceId)));
      UpdateBlobRefs(None, file);
      return Success((file, None));
    }

    method ApplyUpdate(op: FileOp, file: StoredFile,
            freshId: string) returns (r: Result<(StoredFile, Option<string>), Failure>)
      modifies store`conflicts, store`blobRefs
      ensures Matches(Vault.ApplyUpdate(old(store.Abs()), op, file, freshId), r, old(store.Abs()), store.conflicts,
                      store.blobRefs)
    {
      hide Dominates, UpdatedRefs, SideRef, CreateConflict;
      var newVV := op.newContentVV.GetOr(map[]);
      if !Dominates(newVV, file.contentVV) {
        if IsConcurrent(newVV, file.contentVV) {
          var id := store.AddConflict(ConflictOf(op, file), freshId);
          AddConflictRefs(id, file.blobRef, op.blobRef);
          return Success((file.(conflictId := Some(id)), Some(id)));
        }
        return Failure(Sync(STALE));
      }
      var updated := Overwritten(op, file);
      UpdateBlobRefs(Some(file), updated);
      return Success((updated, None));
    }

    method ApplyRename(op: FileOp, file: StoredFile) returns (r: Result<(StoredFile, Option<string>), Failure>)
      ensures Matches(Vault.ApplyRename(store.Abs(), op, file), r, store.Abs(), store.conflicts, store.blobRefs)
    {
      hide UniquePath, NormalizePath, CaseFold, PathClockWins;
      if !ValidPathClock(op.pathClock) { return Failure(Sync(BAD_REQUEST)); }
      if !PathClockWins(op.pathClock.value, file.pathClock) { return Success((file, None)); }
      var wanted := NormalizePath(op.newPath.GetOr(file.path));
      if wanted.None? { return Failure(PathError); }
      var path := UniquePathFor(wanted.value, op.fileId);
      if path.None? { return Failure(Sync(ILLEGAL_PATH)); }
      return Success((file.(path := path.value, pathNormalized := CaseFold(path.value),
                            pathClock := op.pathClock.value), None));
    }

    method ApplyDelete(op: FileOp, file: StoredFile) returns (r: Result<(StoredFile, Option<string>), Failure>)
      ensures Matches(Success(Vault.ApplyDelete(store.Abs(), op, file)), r, store.Abs(), store.conflicts,
                      store.blobRefs)
    {
      var deleteVV := op.newContentVV.OrElse(op.baseContentVV).GetOr(file.contentVV);
      return Success((file.(deleteVV := Some(deleteVV), deleted := true), None));
    }

    method ApplyRestore(op: FileOp, file: StoredFile) returns (r: Result<(StoredFile, Option<string>), Failure>)
      modifies store`blobRefs
      ensures Matches(Vault.ApplyRestore(old(store.Abs()), op, file), r, old(store.Abs()), store.conflicts,
                      store.blobRefs)
    {
      hide UniquePath, NormalizePath, CaseFold, UpdatedRefs;
      var restoredVV := JoinLoop(file.deleteVV.GetOr(map[]), op.newContentVV.GetOr(file.contentVV));
      hide Join;
      var wanted := NormalizePath(op.newPath.GetOr(file.path));
      if wanted.None? { return Failure(PathError); }
      var path := UniquePathFor(wanted.value, op.fileId);
      if path.None? { return Failure(Sync(ILLEGAL_PATH)); }
      var restored := file.(path := path.value, pathNormalized := CaseFold(path.value), contentVV := restoredVV,
                            contentHash := op.contentHash.OrElse(file.contentHash), size := op.size.OrElse(file.size),
                            blobRef := op.blobRef.OrElse(file.blobRef), encrypted := op.encrypted || file.encrypted,
                            deleteVV := None, deleted := false, epoch := file.epoch + 1, conflictId := None);
      UpdateBlobRefs(Some(file), restored);
      return Success((restored, None));
    }

    /** Numbers the operation and writes file, log, outbox and device. */
    method Append(op: FileOp, file: StoredFile, conflictId: Option<string>,
            syntheticCollab: bool) returns (result: OpResult)
      requires syntheticCollab == Synthetic(op) && file.fileId == op.fileId
      modifies store`files, store`seqs, store`opsById, store`opsByDeviceSeq, store`opsByVault, store`outbox,
          store`devices
      ensures var e := Effect(file, conflictId, store.conflicts, store.blobRefs);
        && result == AckOf(old(store.Journal()), op, e) && store.Journal() == Record(old(store.Journal()), op, e)
        && store.files == Set(old(store.files), op.fileId, file)
    {
      hide InsertBySeq;
      var vaultSeq := store.NextVaultSeq();
      var clocks := ClocksOf(file);
      result := Ack(op.opId, vaultSeq, clocks, conflictId);
      store.SaveFile(file);
      store.AppendOp(StoredOp(vaultSeq, op.opId, op.deviceId, op.deviceSeq, op, result));
      store.AppendOutbox(vaultSeq, AppliedOp(vaultSeq, op, clocks));
      if !syntheticCollab && op.deviceId in store.devices {
        store.SaveDevice(op.deviceId, store.devices[op.deviceId].(lastDeviceSeq := op.deviceSeq, lastSeq := vaultSeq));
      }
    }
  }

  class ConflictService {
    const store: InMemoryDataStore

    constructor (store: InMemoryDataStore)
      ensures this.store == store
    {
      this.store := store;
    }

    method Claim(deviceId: string, mayWrite: bool, conflictId: string) returns (r: ConflictOutcome)
      modifies store`conflicts
      ensures (store.Abs(), r) == Vault.Claim(old(store.Abs()), deviceId, mayWrite, conflictId)
    {
      if conflictId !in store.conflicts.at { return Failed(NOT_FOUND); }
      if !mayWrite { return Failed(FORBIDDEN); }
      var conflict := store.conflicts.at[conflictId];
      if conflict.status == Resolved { return Failed(CONFLICT_ALREADY_RESOLVED); }
      if conflict.status == Claimed && PresentText(conflict.claimedBy) && conflict.claimedBy != Some(deviceId) {
        return Failed(FORBIDDEN);
      }
      var claimed := conflict.(status := Claimed, claimedBy := Some(deviceId));
      var ok := store.CompareAndSetConflict(conflictId, claimed, conflict.status, conflict.claimedBy);
      assert ok; // no other request runs between the read and the exchange
      return Done(claimed);
    }

    method Release(deviceId: string, mayWrite: bool, conflictId: string) returns (r: ConflictOutcome)
      modifies store`conflicts
      ensures (store.Abs(), r) == Vault.Release(old(store.Abs()), deviceId, mayWrite, conflictId)
    {
      if conflictId !in store.conflicts.at { return Failed(NOT_FOUND); }
      if !mayWrite { return Failed(FORBIDDEN); }
      var conflict := store.conflicts.at[conflictId];
      if conflict.status == Resolved { return Failed(CONFLICT_ALREADY_RESOLVED); }
      if conflict.claimedBy != Some(deviceId) { return Failed(CONFLICT_NOT_CLAIMED); }
      var released := conflict.(status := Open, claimedBy := None);
      var ok := store.CompareAndSetConflict(conflictId, released, conflict.status, Some(deviceId));
      assert ok;
      return Done(released);
    }

    method Resolve(input: ResolveInput, mayWrite: bool) returns (r: ConflictOutcome)
      requires store.Valid()
      modifies store`conflicts, store`content, store`blobRefs, store`files
      ensures store.Valid()
      ensures (store.Abs(), r) == Vault.Resolve(old(store.Abs()), input, mayWrite)
    {
      hide ByteLength, JoinedVV, ResolvedContent, ResolvedRefs, HasContent;
      if input.conflictId !in store.conflicts.at { return Failed(NOT_FOUND); }
      if !mayWrite { return Failed(FORBIDDEN); }
      var conflict := store.conflicts.at[input.conflictId];
      if conflict.status == Resolved { return Done(conflict); }
      if conflict.claimedBy != Some(input.deviceId) { return Failed(CONFLICT_NOT_CLAIMED); }
      if conflict.fileId !in store.files.at { return Failed(NOT_FOUND); }
      var file := store.files.at[conflict.fileId];
      if input.resolvedHash.Some? && !input.resolvedHash.value.Digest? { return Failed(BAD_REQUEST); }
      if input.resolvedHash.Some? && input.inlineText.Some? { return Failed(BAD_REQUEST); }
      var chosen := ResolvedHash(input);
      if chosen.None? { return Failed(BAD_REQUEST); }
      var hash := chosen.value;
      var content := ReadContent(input, hash);
      if content.Failure? { return Failed(content.error); }
      var (newBlobRef, newSize) := content.value;
      r := Settle(input, conflict, file, hash, newBlobRef, newSize);
    }

    /** Moves the references, settles the record and gives the file the chosen content. */
    method Settle(input: ResolveInput, conflict: ConflictRecord, file: StoredFile, hash: Hash, newBlobRef: Option<Hash>,
            newSize: nat)
      returns (r: ConflictOutcome)
      requires input.conflictId in store.conflicts.at && store.conflicts.at[input.conflictId] == conflict
      requires conflict.claimedBy == Some(input.deviceId)
      modifies store`conflicts, store`blobRefs, store`files
      ensures r == Done(conflict.(status := Resolved,
                                  resolution := Some(Resolution(input.deviceId, hash, JoinedVV(conflict, input)))))
      ensures store.conflicts == Set(old(store.conflicts), input.conflictId, r.conflict)
      ensures store.blobRefs == ResolvedRefs(old(store.blobRefs), input.conflictId, conflict, file, newBlobRef)
      ensures store.files == Set(old(store.files), file.fileId,
                                 file.(contentHash := Some(hash), blobRef := newBlobRef, size := Some(newSize),
                                       encrypted := newBlobRef.Some? && file.encrypted,
                                       contentVV := JoinedVV(conflict, input), conflictId := None, deleted := false))
    {
      hide JoinedVV, ResolvedRefs;
      MoveRefs(input.conflictId, conflict, file, newBlobRef);
      var joined := JoinedOf(conflict, input);
      var resolved := conflict.(status := Resolved, resolution := Some(Resolution(input.deviceId, hash, joined)));
      var ok := store.CompareAndSetConflict(input.conflictId, resolved, conflict.status, Some(input.deviceId));
      assert ok;
      store.SaveFile(file.(contentHash := Some(hash), blobRef := newBlobRef, size := Some(newSize),
                           encrypted := newBlobRef.Some? && file.encrypted,
                           contentVV := joined, conflictId := None, deleted := false));
      return Done(resolved);
    }

    /** Inline text is stored; a hash must name a verified blob or stored content the vault knows. */
    method ReadContent(input: ResolveInput, hash: Hash) returns (r: Result<(Option<Hash>, nat), ErrorCode>)
      modifies store`content
      ensures r == ResolvedContent(old(store.Abs()), input, hash)
      ensures r.Failure? ==> input.inlineText.None?
      ensures store.content == if input.inlineText.Some? then old(store.content)[hash := input.inlineText.value]
        else old(store.content)
    {
      hide ByteLength;
      if input.inlineText.Some? {
        store.PutContent(hash, input.inlineText.value);
        return Success((None, ByteLength(input.inlineText.value)));
      }
      var known := HasContentForVault(hash);
      if !known && !input.allowPending { return Failure(FORBIDDEN); }
      var blob := Lookup(store.blobs, hash);
      if blob.Some? && blob.value.state == Verified { return Success((Some(hash), blob.value.size)); }
      if hash !in store.content { return Failure(BAD_REQUEST); }
      return Success((None, ByteLength(store.content[hash])));
    }

    method HasContentForVault(hash: Hash) returns (r: bool)
      ensures r == HasContent(store.Abs(), hash)
    {
      if exists f :: f in store.files.at && store.files.at[f].contentHash == Some(hash) { return true; }
      if exists c :: c in store.conflicts.at && Some(hash) in {store.conflicts.at[c].baseHash,
          store.conflicts.at[c].oursHash, store.conflicts.at[c].theirsHash}
      {
        return true;
      }
      return exists k :: 0 <= k < |store.opsByVault| &&
                         (|| store.opsByVault[k].payload.contentHash == Some(hash)
                          || store.opsByVault[k].payload.blobRef == Some(hash));
    }

    method MoveRefs(conflictId: string, conflict: ConflictRecord, file: StoredFile, newBlobRef: Option<Hash>)
      modifies store`blobRefs
      ensures store.blobRefs == ResolvedRefs(old(store.blobRefs), conflictId, conflict, file, newBlobRef)
    {
      if Present(conflict.oursHash) { store.RemoveBlobRef(ConflictSide(conflict.oursHash.value, conflictId, Ours)); }
      if Present(conflict.theirsHash) {
        store.RemoveBlobRef(ConflictSide(conflict.theirsHash.value, conflictId, Theirs));
      }
      if Present(file.blobRef) && file.blobRef != newBlobRef {
        store.RemoveBlobRef(FileLive(file.blobRef.value, file.fileId));
      }
      if newBlobRef.Some? { store.AddBlobRef(FileLive(newBlobRef.value, file.fileId)); }
    }

    static method JoinedOf(conflict: ConflictRecord, input: ResolveInput) returns (vv: VersionVector)
      ensures vv == JoinedVV(conflict, input)
    {
      var sides := JoinLoop(conflict.oursVV, conflict.theirsVV);
      var all := JoinLoop(sides, input.resolvedVV);
      return Bump(all, input.deviceId);
    }
  }

  class BlobStore {
    const data: InMemoryDataStore

    constructor (data: InMemoryDataStore)
      ensures this.data == data
    {
      this.data := data;
    }

    method InitUpload(hash: Hash, size: int) returns (alreadyExists: bool, error: Option<ErrorCode>)
      modifies data`blobs
      ensures data.Abs() == Vault.InitUpload(old(data.Abs()), hash, size)
      ensures alreadyExists ==> hash in data.blobs.at && data.blobs.at[hash].state.Verified?
    {
      if !hash.Digest? || size < 0 || size > MAX_SAFE_INTEGER { return false, Some(BAD_REQUEST); }
      var existing := Lookup(data.blobs, hash);
      if existing.Some? && existing.value.state == Verified { return true, None; }
      var blob := existing.GetOr(BlobRecord(size, BlobState.Pending, None));
      if blob.size != size { return false, Some(BLOB_HASH_MISMATCH); }
      data.SaveBlob(hash, blob.(state := BlobState.Pending));
      return false, None;
    }

    method CompleteUpload(hash: Hash, storedSize: int, storedHash: Hash) returns (error: Option<ErrorCode>)
      modifies data`blobs
      ensures data.Abs() == Vault.CompleteUpload(old(data.Abs()), hash, storedSize, storedHash)
      ensures error.None? ==> hash in data.blobs.at && data.blobs.at[hash].state.Verified?
    {
      if !hash.Digest? { return Some(BAD_REQUEST); }
      var blob := Lookup(data.blobs, hash);
      if blob.None? { return Some(BLOB_MISSING); }
      if storedSize != blob.value.size { return Some(BLOB_HASH_MISMATCH); }
      if storedHash != hash { return Some(BLOB_HASH_MISMATCH); }
      data.SaveBlob(hash, blob.value.(state := Verified, unreferencedAt := None));
      return None;
    }

    /** Marks unreferenced blobs, and removes those marked long enough ago. */
    method GcUnreferenced(minAge: nat, now: nat) returns (removed: set<Hash>)
      modifies data`blobs
      ensures data.Abs() == Vault.GcUnreferenced(old(data.Abs()), minAge, now)
      ensures removed == set h | h in data.blobs.at && data.blobs.at[h].state.Deleted?
        && !old(data.blobs).at[h].state.Deleted?
    {
      removed := {};
      ghost var before := data.blobs;
      var todo := data.blobs.at.Keys;
      while todo != {}
        invariant todo <= before.at.Keys && data.blobs.order == before.order && data.blobs.at.Keys == before.at.Keys
        invariant forall h :: h in before.at ==>
          data.blobs.at[h] == if h in todo then before.at[h]
          else CollectedBlob(before.at[h], Referenced(data.blobRefs, h), minAge, now)
        invariant removed == set h | h in data.blobs.at && data.blobs.at[h].state.Deleted?
          && !before.at[h].state.Deleted?
      {
        var hash :| hash in todo;
        var blob := data.blobs.at[hash];
        todo := todo - {hash};
        if (exists r :: r in data.blobRefs && r.hash == hash) || blob.state == Deleted { continue; }
        if blob.unreferencedAt.None? {
          data.SaveBlob(hash, blob.(state := Unreferenced, unreferencedAt := Some(now)));
        } else if now - blob.unreferencedAt.value >= minAge {
          data.SaveBlob(hash, blob.(state := Deleted));
          removed := removed + {hash};
        }
      }
      assert data.blobs.at == CollectedBlobs(before, data.blobRefs, minAge, now).at;
    }
  }

  /** The outcome of a change in place agrees with the specified effect. */
  ghost predicate Matches(spec: Result<Effect, Failure>, r: Result<(StoredFile, Option<string>), Failure>,
          before: State, conflicts: OrderedMap<string, ConflictRecord>, refs: set<BlobRef>) {
    match spec
    case Failure(f) => r == Failure(f) && conflicts == before.conflicts && refs == before.refs
    case Success(e) => r == Success((e.file, e.conflictId)) && conflicts == e.conflicts && refs == e.refs
  }

  ghost predicate Prepared(before: State, op: FileOp, now: nat, freshId: string,
          r: Result<(StoredFile, Option<string>), Failure>,
                           conflicts: OrderedMap<string, ConflictRecord>, refs: set<BlobRef>) {
    Matches(Prepare(before, op, now, freshId), r, before, conflicts, refs)
  }
}
