/** Layer 1 of the server as a state machine on values: the records of the store
    (packages/server/src/engine/store.ts), what an operation does to them
    (packages/server/src/engine/op-processor.ts), the conflict life cycle
    (packages/server/src/engine/conflict.ts) and the blob life cycle
    (packages/server/src/blob/store.ts). One vault; each server operation is one step. */
module Vault {
  import opened Options
  import opened OrderedMaps
  import opened VersionVectors
  import opened PathClocks
  import opened Paths

  const MAX_SAFE_INTEGER := 0x1F_FFFF_FFFF_FFFF

  // ---- identifiers and hashes ----

  /** A well-formed content hash stands for the content it is the digest of. */
  datatype Hash = Digest(content: string) | Malformed(raw: string)

  /** Random ids of client operations, and the ids derived from a room and its epoch. */
  datatype OpId = Uuid(text: string) | RoomFlush(fileId: string, epoch: nat)

  predicate Present(h: Option<Hash>) {
    h.Some? && h.value != Malformed("")
  }

  predicate PresentText(t: Option<string>) {
    t.Some? && t.value != ""
  }

  // ---- operations ----

  datatype FileType = Note | Attachment | Config
  datatype OpKind = Create | Update | Rename | Delete | Restore

  datatype FileOp = FileOp(
    opId: OpId, deviceId: string, deviceSeq: int, fileId: string, kind: OpKind, fileType: FileType,
    baseContentVV: Option<VersionVector>, newContentVV: Option<VersionVector>,
    contentHash: Option<Hash>, size: Option<nat>, encrypted: bool, inlineText: Option<string>, blobRef: Option<Hash>,
    newPath: Option<string>, pathClock: Option<PathClock>)

  predicate ContentKind(kind: OpKind) {
    kind.Create? || kind.Update? || kind.Restore?
  }

  function CollabDevice(fileId: string): string {
    "collab:" + fileId
  }

  /** Operations that the room of a file sends in its own name. */
  predicate Synthetic(op: FileOp) {
    op.deviceId == CollabDevice(op.fileId)
  }

  // ---- stored records ----

  datatype StoredDevice = StoredDevice(lastDeviceSeq: int, lastSeq: nat, revoked: bool)

  datatype StoredFile = StoredFile(
    fileId: string, fileType: FileType, path: string, pathNormalized: string, pathClock: PathClock,
    contentVV: VersionVector, contentHash: Option<Hash>, size: Option<nat>, blobRef: Option<Hash>, encrypted: bool,
    deleteVV: Option<VersionVector>, deleted: bool, epoch: nat, conflictId: Option<string>, activeUntil: Option<nat>)

  datatype ResultingClocks = ResultingClocks(contentVV: VersionVector, pathClock: PathClock,
          deleteVV: Option<VersionVector>, epoch: nat)

  datatype ErrorCode =
    | UNAUTHENTICATED | DEVICE_REVOKED | FORBIDDEN | STALE | SEQ_GAP | BAD_REQUEST | ILLEGAL_PATH
    | BLOB_HASH_MISMATCH | BLOB_MISSING | FILE_ACTIVE | CONFLICT_PENDING | NOT_FOUND
    | CONFLICT_ALREADY_RESOLVED | CONFLICT_NOT_CLAIMED

  /** Thrown stands for an exception that is not a SyncError and leaves the processor. */
  datatype OpResult =
    | Ack(opId: OpId, vaultSeq: nat, clocks: ResultingClocks, conflictId: Option<string>)
    | Reject(opId: OpId, code: ErrorCode, expected: Option<int>)
    | Thrown

  datatype StoredOp = StoredOp(vaultSeq: nat, opId: OpId, deviceId: string, deviceSeq: int, payload: FileOp,
          result: OpResult)
  datatype AppliedOp = AppliedOp(vaultSeq: nat, op: FileOp, clocks: ResultingClocks)

  datatype BlobState = Pending | Uploaded | Verified | Unreferenced | Deleted
  datatype BlobRecord = BlobRecord(size: nat, state: BlobState, unreferencedAt: Option<nat>)

  datatype Side = Ours | Theirs
  datatype BlobRef = FileLive(hash: Hash, fileId: string) | ConflictSide(hash: Hash, conflictId: string, side: Side)

  datatype ConflictKind = ContentConflict | AttachmentConflict
  datatype ConflictStatus = Open | Claimed | Resolved
  datatype Resolution = Resolution(resolvedBy: string, hash: Hash, vv: VersionVector)
  datatype ConflictRecord = ConflictRecord(
    fileId: string, kind: ConflictKind, baseHash: Option<Hash>, oursHash: Option<Hash>, theirsHash: Option<Hash>,
    oursVV: VersionVector, theirsVV: VersionVector,
    status: ConflictStatus, claimedBy: Option<string>, resolution: Option<Resolution>)

  /** Devices, the numbered operation log with its two indexes, and the outbox of applied operations. */
  datatype Journal = Journal(
    devices: map<string, StoredDevice>,
    log: seq<StoredOp>,
    opsById: map<OpId, StoredOp>,
    opsByDeviceSeq: map<(string, int), StoredOp>,
    nextSeq: nat,
    outbox: seq<AppliedOp>)

  datatype State = State(
    journal: Journal,
    files: OrderedMap<string, StoredFile>,
    conflicts: OrderedMap<string, ConflictRecord>,
    blobs: OrderedMap<Hash, BlobRecord>,
    refs: set<BlobRef>,
    content: map<Hash, string>)

  const Initial := State(Journal(map[], [], map[], map[], 1, []), Empty(), Empty(), Empty(), {}, map[])

  datatype Failure = Sync(code: ErrorCode) | PathError

  // ---- path allocation ----

  predicate LiveAt(file: StoredFile, folded: string) {
    !file.deleted && file.pathNormalized == folded
  }

  function FindLiveFileByPath(files: OrderedMap<string, StoredFile>, folded: string): Option<string> {
    Find(files, (f: StoredFile) => LiveAt(f, folded))
  }

  /** The path is taken when the first live file found there is another file. */
  predicate Taken(files: OrderedMap<string, StoredFile>, path: string, fileId: string) {
    var hit := FindLiveFileByPath(files, CaseFold(path));
    hit.Some? && files.at[hit.value].fileId != fileId
  }

  /** The k-th path that is tried: the desired one, then its suffixes from 2 on. */
  function Candidate(desired: string, k: nat): string {
    if k == 0 then desired else SuffixPath(desired, k + 1)
  }

  const CANDIDATES := 9998

  function FirstFree(files: OrderedMap<string, StoredFile>, desired: string, fileId: string, k: nat): Option<string>
    decreases CANDIDATES - k
  {
    if k >= CANDIDATES then None
    else if !Taken(files, Candidate(desired, k), fileId) then Some(Candidate(desired, k))
    else FirstFree(files, desired, fileId, k + 1)
  }

  function UniquePath(files: OrderedMap<string, StoredFile>, desired: string, fileId: string): Option<string> {
    FirstFree(files, desired, fileId, 0)
  }

  // ---- validation ----

  function ValidateShape(op: FileOp): Option<Failure> {
    if op.opId == Uuid("") || op.deviceId == "" || op.fileId == "" || op.deviceSeq > MAX_SAFE_INTEGER
        || op.deviceSeq < 1 then
      Some(Sync(BAD_REQUEST))
    else if (op.kind.Create? || op.kind.Rename?) && !PresentText(op.newPath) then Some(Sync(ILLEGAL_PATH))
    else if PresentText(op.newPath) && NormalizePath(op.newPath.value).None? then Some(PathError)
    else None
  }

  predicate CarriesHash(op: FileOp) {
    ContentKind(op.kind) && Present(op.contentHash)
  }

  function ValidateHash(content: map<Hash, string>, op: FileOp): Option<Failure> {
    if !CarriesHash(op) then None
    else if !op.contentHash.value.Digest? then Some(Sync(BAD_REQUEST))
    else if op.encrypted && op.inlineText.Some? then Some(Sync(BAD_REQUEST))
    else if op.encrypted && !Present(op.blobRef) && op.contentHash.value !in content then Some(Sync(BAD_REQUEST))
    else if op.inlineText.Some? && Digest(op.inlineText.value) != op.contentHash.value then
      Some(Sync(BLOB_HASH_MISMATCH))
    else None
  }

  function ValidateBlob(blobs: OrderedMap<Hash, BlobRecord>, op: FileOp): Option<Failure> {
    if !CarriesHash(op) || !Present(op.blobRef) then None
    else
      var blob := Lookup(blobs, op.blobRef.value);
      if blob.None? || !blob.value.state.Verified? || op.size.None? || blob.value.size != op.size.value then
        Some(Sync(BLOB_MISSING))
      else None
  }

  /** Inline text is stored as soon as its hash is confirmed, whatever is decided afterwards. */
  function StoredContent(content: map<Hash, string>, op: FileOp): map<Hash, string> {
    if ValidateShape(op).None? && ValidateHash(content, op).None? && CarriesHash(op) && op.inlineText.Some?
    then content[op.contentHash.value := op.inlineText.value] else content
  }

  function Validate(s: State, op: FileOp): Option<Failure> {
    ValidateShape(op).OrElse(ValidateHash(s.content, op)).OrElse(ValidateBlob(s.blobs, op))
  }

  // ---- blob references ----

  function LiveRef(file: StoredFile): set<BlobRef> {
    if Present(file.blobRef) then {FileLive(file.blobRef.value, file.fileId)} else {}
  }

  function UpdatedRefs(refs: set<BlobRef>, oldFile: Option<StoredFile>, newFile: StoredFile): set<BlobRef> {
    (if oldFile.Some? && oldFile.value.blobRef != newFile.blobRef then refs - LiveRef(oldFile.value) else refs)
        + LiveRef(newFile)
  }

  function SideRef(blob: Option<Hash>, conflictId: string, side: Side): set<BlobRef> {
    if Present(blob) then {ConflictSide(blob.value, conflictId, side)} else {}
  }

  // ---- applying an operation ----

  /** What an accepted operation writes before it is numbered. */
  datatype Effect = Effect(file: StoredFile, conflictId: Option<string>, conflicts: OrderedMap<string, ConflictRecord>,
          refs: set<BlobRef>)

  function NewStoredFile(op: FileOp, path: string, pathClock: PathClock): StoredFile {
    StoredFile(op.fileId, op.fileType, path, CaseFold(path), pathClock, op.newContentVV.GetOr(map[]),
               op.contentHash.OrElse(op.blobRef), op.size, op.blobRef, op.encrypted, None, false, 0, None, None)
  }

  function ApplyCreate(s: State, op: FileOp, existing: Option<StoredFile>, freshId: string): Result<Effect, Failure> {
    if existing.Some? && !existing.value.deleted then ApplyUpdate(s, op, existing.value, freshId)
    else
      var wanted := NormalizePath(op.newPath.GetOr(op.fileId));
      if wanted.None? then Failure(PathError)
      else
        var path := UniquePath(s.files, wanted.value, op.fileId);
        if path.None? then Failure(Sync(ILLEGAL_PATH))
        else
          var file := NewStoredFile(op, path.value, op.pathClock.GetOr(PathClock(1, op.deviceId)));
          Success(Effect(file, None, s.conflicts, UpdatedRefs(s.refs, None, file)))
  }

  function ConflictOf(op: FileOp, file: StoredFile): ConflictRecord {
    ConflictRecord(op.fileId, if op.fileType.Attachment? then AttachmentConflict else ContentConflict,
                   op.contentHash, file.contentHash, op.contentHash.OrElse(op.blobRef),
                   file.contentVV, op.newContentVV.GetOr(map[]), Open, None, None)
  }

  predicate SameConflict(existing: ConflictRecord, input: ConflictRecord) {
    && existing.fileId == input.fileId && existing.kind == input.kind
    && existing.oursHash == input.oursHash && existing.theirsHash == input.theirsHash && !existing.status.Resolved?
  }

  /** An equal unresolved conflict is reused; otherwise a record is added under a fresh id. */
  function CreateConflict(conflicts: OrderedMap<string, ConflictRecord>, input: ConflictRecord,
          freshId: string): (OrderedMap<string, ConflictRecord>, string) {
    var existing := Find(conflicts, (c: ConflictRecord) => SameConflict(c, input));
    if existing.Some? then (conflicts, existing.value) else (Set(conflicts, freshId, input), freshId)
  }

  function Overwritten(op: FileOp, file: StoredFile): StoredFile {
    file.(contentVV := op.newContentVV.GetOr(map[]),
          contentHash := op.contentHash.OrElse(op.blobRef).OrElse(file.contentHash),
          size := op.size.OrElse(file.size), blobRef := op.blobRef, encrypted := op.encrypted, deleted := false,
              conflictId := None)
  }

  function ApplyUpdate(s: State, op: FileOp, file: StoredFile, freshId: string): Result<Effect, Failure> {
    var newVV := op.newContentVV.GetOr(map[]);
    if Dominates(newVV, file.contentVV) then
      var updated := Overwritten(op, file);
      Success(Effect(updated, None, s.conflicts, UpdatedRefs(s.refs, Some(file), updated)))
    else if IsConcurrent(newVV, file.contentVV) then
      var (conflicts, id) := CreateConflict(s.conflicts, ConflictOf(op, file), freshId);
      Success(Effect(file.(conflictId := Some(id)), Some(id), conflicts,
                     s.refs + SideRef(file.blobRef, id, Ours) + SideRef(op.blobRef, id, Theirs)))
    else Failure(Sync(STALE))
  }

  predicate ValidPathClock(clock: Option<PathClock>) {
    clock.Some? && 0 <= clock.value.lamport <= MAX_SAFE_INTEGER && clock.value.deviceId != ""
  }

  function ApplyRename(s: State, op: FileOp, file: StoredFile): Result<Effect, Failure> {
    if !ValidPathClock(op.pathClock) then Failure(Sync(BAD_REQUEST))
    else if !PathClockWins(op.pathClock.value, file.pathClock) then Success(Effect(file, None, s.conflicts, s.refs))
    else
      var wanted := NormalizePath(op.newPath.GetOr(file.path));
      if wanted.None? then Failure(PathError)
      else
        var path := UniquePath(s.files, wanted.value, op.fileId);
        if path.None? then Failure(Sync(ILLEGAL_PATH))
        else Success(Effect(file.(path := path.value, pathNormalized := CaseFold(path.value),
                                  pathClock := op.pathClock.value),
                            None, s.conflicts, s.refs))
  }

  function ApplyDelete(s: State, op: FileOp, file: StoredFile): Effect {
    Effect(file.(deleteVV := Some(op.newContentVV.OrElse(op.baseContentVV).GetOr(file.contentVV)), deleted := true),
           None, s.conflicts, s.refs)
  }

  function ApplyRestore(s: State, op: FileOp, file: StoredFile): Result<Effect, Failure> {
    var restoredVV := Join(file.deleteVV.GetOr(map[]), op.newContentVV.GetOr(file.contentVV));
    var wanted := NormalizePath(op.newPath.GetOr(file.path));
    if wanted.None? then Failure(PathError)
    else
      var path := UniquePath(s.files, wanted.value, op.fileId);
      if path.None? then Failure(Sync(ILLEGAL_PATH))
      else
        var restored := file.(path := path.value, pathNormalized := CaseFold(path.value), contentVV := restoredVV,
                              contentHash := op.contentHash.OrElse(file.contentHash), size := op.size.OrElse(file.size),
                              blobRef := op.blobRef.OrElse(file.blobRef), encrypted := op.encrypted || file.encrypted,
                              deleteVV := None, deleted := false, epoch := file.epoch + 1, conflictId := None);
        Success(Effect(restored, None, s.conflicts, UpdatedRefs(s.refs, Some(file), restored)))
  }

  function Apply(s: State, op: FileOp, file: Option<StoredFile>, freshId: string): Result<Effect, Failure> {
    if op.kind.Create? then ApplyCreate(s, op, file, freshId)
    else if file.None? then Failure(Sync(NOT_FOUND))
    else
      match op.kind
      case Update => ApplyUpdate(s, op, file.value, freshId)
      case Rename => ApplyRename(s, op, file.value)
      case Delete => Success(ApplyDelete(s, op, file.value))
      case Restore => ApplyRestore(s, op, file.value)
  }

  // ---- processing an operation ----

  /** A reply that is due before the operation is looked into. */
  function Admission(j: Journal, op: FileOp, mayWrite: bool): Option<OpResult> {
    if Synthetic(op) then None
    else if op.deviceId !in j.devices then Some(Reject(op.opId, UNAUTHENTICATED, None))
    else if j.devices[op.deviceId].revoked then Some(Reject(op.opId, DEVICE_REVOKED, None))
    else if !mayWrite then Some(Reject(op.opId, FORBIDDEN, None))
    else
      var expected := j.devices[op.deviceId].lastDeviceSeq + 1;
      if op.deviceSeq < expected then
        if (op.deviceId, op.deviceSeq) in j.opsByDeviceSeq then
          Some(j.opsByDeviceSeq[(op.deviceId, op.deviceSeq)].result)
        else Some(Reject(op.opId, STALE, Some(expected)))
      else if op.deviceSeq > expected then Some(Reject(op.opId, SEQ_GAP, Some(expected)))
      else None
  }

  predicate ActiveAt(file: StoredFile, now: nat) {
    file.activeUntil.Some? && file.activeUntil.value > now
  }

  /** Validation, the two freezes and the kind of the operation decide what it would write. */
  function Prepare(s: State, op: FileOp, now: nat, freshId: string): Result<Effect, Failure> {
    var invalid := Validate(s, op);
    var file := Lookup(s.files, op.fileId);
    if invalid.Some? then Failure(invalid.value)
    else if !Synthetic(op) && file.Some? && ActiveAt(file.value, now) && ContentKind(op.kind) then
      Failure(Sync(FILE_ACTIVE))
    else if file.Some? && PresentText(file.value.conflictId) && ContentKind(op.kind) then
      Failure(Sync(CONFLICT_PENDING))
    else Apply(s, op, file, freshId)
  }

  function ClocksOf(file: StoredFile): ResultingClocks {
    ResultingClocks(file.contentVV, file.pathClock, file.deleteVV, file.epoch)
  }

  /** Appending keeps the per-vault list sorted by sequence number. */
  function InsertBySeq(log: seq<StoredOp>, op: StoredOp): seq<StoredOp> {
    if |log| == 0 || log[|log| - 1].vaultSeq <= op.vaultSeq then log + [op]
    else InsertBySeq(log[..|log| - 1], op) + [log[|log| - 1]]
  }

  function AckOf(j: Journal, op: FileOp, e: Effect): OpResult {
    Ack(op.opId, j.nextSeq, ClocksOf(e.file), e.conflictId)
  }

  function EntryOf(j: Journal, op: FileOp, e: Effect): StoredOp {
    StoredOp(j.nextSeq, op.opId, op.deviceId, op.deviceSeq, op, AckOf(j, op, e))
  }

  /** The operation takes the next vault sequence number and its device's stream advances. */
  function Record(j: Journal, op: FileOp, e: Effect): Journal {
    Journal(
      if !Synthetic(op) && op.deviceId in j.devices
      then j.devices[op.deviceId := j.devices[op.deviceId].(lastDeviceSeq := op.deviceSeq, lastSeq := j.nextSeq)]
             else j.devices,
      InsertBySeq(j.log, EntryOf(j, op, e)),
      j.opsById[op.opId := EntryOf(j, op, e)],
      j.opsByDeviceSeq[(op.deviceId, op.deviceSeq) := EntryOf(j, op, e)],
      j.nextSeq + 1,
      j.outbox + [AppliedOp(j.nextSeq, op, ClocksOf(e.file))])
  }

  function Commit(s: State, op: FileOp, e: Effect): State {
    State(Record(s.journal, op, e), Set(s.files, op.fileId, e.file), e.conflicts, s.blobs, e.refs,
          StoredContent(s.content, op))
  }

  function Refusal(op: FileOp, failure: Failure): OpResult {
    if failure.Sync? then Reject(op.opId, failure.code, None) else Thrown
  }

  function Process(s: State, op: FileOp, mayWrite: bool, now: nat, freshId: string): (State, OpResult) {
    if op.opId in s.journal.opsById then (s, s.journal.opsById[op.opId].result)
    else
      var early := Admission(s.journal, op, mayWrite);
      if early.Some? then (s, early.value)
      else
        match Prepare(s, op, now, freshId)
        case Failure(f) => (s.(content := StoredContent(s.content, op)), Refusal(op, f))
        case Success(e) => (Commit(s, op, e), AckOf(s.journal, op, e))
  }

  // ---- conflicts ----

  datatype ConflictOutcome = Done(conflict: ConflictRecord) | Failed(code: ErrorCode)

  function Claim(s: State, deviceId: string, mayWrite: bool, conflictId: string): (State, ConflictOutcome) {
    if conflictId !in s.conflicts.at then (s, Failed(NOT_FOUND))
    else if !mayWrite then (s, Failed(FORBIDDEN))
    else
      var conflict := s.conflicts.at[conflictId];
      if conflict.status.Resolved? then (s, Failed(CONFLICT_ALREADY_RESOLVED))
      else if conflict.status.Claimed? && PresentText(conflict.claimedBy) && conflict.claimedBy != Some(deviceId) then
        (s, Failed(FORBIDDEN))
      else
        var claimed := conflict.(status := Claimed, claimedBy := Some(deviceId));
        (s.(conflicts := Set(s.conflicts, conflictId, claimed)), Done(claimed))
  }

  function Release(s: State, deviceId: string, mayWrite: bool, conflictId: string): (State, ConflictOutcome) {
    if conflictId !in s.conflicts.at then (s, Failed(NOT_FOUND))
    else if !mayWrite then (s, Failed(FORBIDDEN))
    else
      var conflict := s.conflicts.at[conflictId];
      if conflict.status.Resolved? then (s, Failed(CONFLICT_ALREADY_RESOLVED))
      else if conflict.claimedBy != Some(deviceId) then (s, Failed(CONFLICT_NOT_CLAIMED))
      else
        var released := conflict.(status := Open, claimedBy := None);
        (s.(conflicts := Set(s.conflicts, conflictId, released)), Done(released))
  }

  datatype ResolveInput = ResolveInput(conflictId: string, deviceId: string, resolvedHash: Option<Hash>,
          inlineText: Option<string>,
                                       resolvedVV: VersionVector, allowPending: bool)

  /** Some record of the vault already names the hash. */
  predicate HasContent(s: State, hash: Hash) {
    || (exists f :: f in s.files.at && s.files.at[f].contentHash == Some(hash))
    || (exists c :: c in s.conflicts.at
          && Some(hash) in {s.conflicts.at[c].baseHash, s.conflicts.at[c].oursHash, s.conflicts.at[c].theirsHash})
    || (exists k :: 0 <= k < |s.journal.log|
          && (s.journal.log[k].payload.contentHash == Some(hash) || s.journal.log[k].payload.blobRef == Some(hash)))
  }

  /** The hash a resolution chooses; None when the request names no usable content. */
  function ResolvedHash(input: ResolveInput): Option<Hash> {
    if input.resolvedHash.Some? then input.resolvedHash
    else if input.inlineText.Some? then Some(Digest(input.inlineText.value)) else None
  }

  /** Blob reference and size of the resolved content, or the error that stops the resolution. */
  function ResolvedContent(s: State, input: ResolveInput, hash: Hash): Result<(Option<Hash>, nat), ErrorCode> {
    if input.inlineText.Some? then Success((None, ByteLength(input.inlineText.value)))
    else if !HasContent(s, hash) && !input.allowPending then Failure(FORBIDDEN)
    else
      var blob := Lookup(s.blobs, hash);
      if blob.Some? && blob.value.state.Verified? then Success((Some(hash), blob.value.size))
      else if hash in s.content then Success((None, ByteLength(s.content[hash])))
      else Failure(BAD_REQUEST)
  }

  function ResolvedRefs(refs: set<BlobRef>, conflictId: string, conflict: ConflictRecord, file: StoredFile,
          blobRef: Option<Hash>): set<BlobRef> {
    refs - SideRef(conflict.oursHash, conflictId, Ours) - SideRef(conflict.theirsHash, conflictId, Theirs)
    - (if file.blobRef != blobRef then LiveRef(file) else {})
    + (if blobRef.Some? then {FileLive(blobRef.value, file.fileId)} else {})
  }

  function JoinedVV(conflict: ConflictRecord, input: ResolveInput): VersionVector {
    Bump(Join(Join(conflict.oursVV, conflict.theirsVV), input.resolvedVV), input.deviceId)
  }

  function Resolve(s: State, input: ResolveInput, mayWrite: bool): (State, ConflictOutcome) {
    if input.conflictId !in s.conflicts.at then (s, Failed(NOT_FOUND))
    else if !mayWrite then (s, Failed(FORBIDDEN))
    else
      var conflict := s.conflicts.at[input.conflictId];
      var hash := ResolvedHash(input);
      if conflict.status.Resolved? then (s, Done(conflict))
      else if conflict.claimedBy != Some(input.deviceId) then (s, Failed(CONFLICT_NOT_CLAIMED))
      else if conflict.fileId !in s.files.at then (s, Failed(NOT_FOUND))
      else if input.resolvedHash.Some? && !input.resolvedHash.value.Digest? then (s, Failed(BAD_REQUEST))
      else if input.resolvedHash.Some? && input.inlineText.Some? then (s, Failed(BAD_REQUEST))
      else if hash.None? then (s, Failed(BAD_REQUEST))
      else
        match ResolvedContent(s, input, hash.value)
        case Failure(code) => (s, Failed(code))
        case Success((blobRef, size)) =>
          var file := s.files.at[conflict.fileId];
          var vv := JoinedVV(conflict, input);
          var resolved := conflict.(status := Resolved, resolution := Some(Resolution(input.deviceId, hash.value, vv)));
          var newFile := file.(contentHash := hash, blobRef := blobRef, size := Some(size),
                               encrypted := blobRef.Some? && file.encrypted,
                               contentVV := vv, conflictId := None, deleted := false);
          (s.(content := if input.inlineText.Some? then s.content[hash.value := input.inlineText.value] else s.content,
              refs := ResolvedRefs(s.refs, input.conflictId, conflict, file, blobRef),
              conflicts := Set(s.conflicts, input.conflictId, resolved),
              files := Set(s.files, conflict.fileId, newFile)),
           Done(resolved))
  }

  // ---- blobs ----

  function InitUpload(s: State, hash: Hash, size: int): State {
    if !hash.Digest? || size < 0 || size > MAX_SAFE_INTEGER then s
    else
      var blob := Lookup(s.blobs, hash).GetOr(BlobRecord(size, Pending, None));
      if hash in s.blobs.at && blob.state.Verified? then s
      else if blob.size != size then s
      else s.(blobs := Set(s.blobs, hash, blob.(state := Pending)))
  }

  /** The stored object is measured and hashed again before it is trusted. */
  function CompleteUpload(s: State, hash: Hash, storedSize: int, storedHash: Hash): State {
    if !hash.Digest? || hash !in s.blobs.at || storedSize != s.blobs.at[hash].size || storedHash != hash then s
    else s.(blobs := Set(s.blobs, hash, s.blobs.at[hash].(state := Verified, unreferencedAt := None)))
  }

  predicate Referenced(refs: set<BlobRef>, hash: Hash) {
    exists r :: r in refs && r.hash == hash
  }

  function CollectedBlob(blob: BlobRecord, referenced: bool, minAge: nat, now: nat): BlobRecord {
    if referenced || blob.state.Deleted? then blob
    else if blob.unreferencedAt.None? then blob.(state := Unreferenced, unreferencedAt := Some(now))
    else if now - blob.unreferencedAt.value >= minAge then blob.(state := Deleted)
    else blob
  }

  function CollectedBlobs(blobs: OrderedMap<Hash, BlobRecord>, refs: set<BlobRef>, minAge: nat,
          now: nat): OrderedMap<Hash, BlobRecord> {
    RawMap(blobs.order, map h | h in blobs.at :: CollectedBlob(blobs.at[h], Referenced(refs, h), minAge, now))
  }

  function GcUnreferenced(s: State, minAge: nat, now: nat): State {
    s.(blobs := CollectedBlobs(s.blobs, s.refs, minAge, now))
  }

  // ---- devices and leases ----

  function RegisterDevice(j: Journal, deviceId: string): Journal {
    if deviceId in j.devices then j else j.(devices := j.devices[deviceId := StoredDevice(0, 0, false)])
  }

  function RevokeDevice(j: Journal, deviceId: string): Journal {
    if deviceId !in j.devices then j else j.(devices := j.devices[deviceId := j.devices[deviceId].(revoked := true)])
  }

  /** The room of a file records its lease on the file. */
  function SetActive(s: State, fileId: string, until: Option<nat>): State {
    if fileId !in s.files.at then s else s.(files := Set(s.files, fileId, s.files.at[fileId].(activeUntil := until)))
  }
}
