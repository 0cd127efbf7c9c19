/** Runs of the Layer 1 server: every request it answers, in any order. */
module VaultRuns {
  import opened Options
  import opened VersionVectors
  import opened Paths
  import opened Vault

  datatype Event =
    | Submit(op: FileOp, mayWrite: bool, now: nat, freshId: string)
    | ClaimConflict(deviceId: string, mayWrite: bool, conflictId: string)
    | ReleaseConflict(deviceId: string, mayWrite: bool, conflictId: string)
    | ResolveConflict(input: ResolveInput, mayWrite: bool)
    | UploadInit(hash: Hash, size: int)
    | UploadComplete(hash: Hash, storedSize: int, storedHash: Hash)
    | CollectGarbage(minAge: nat, now: nat)
    | Register(deviceId: string)
    | Revoke(deviceId: string)
    | Lease(fileId: string, until: Option<nat>)

  function Step(s: State, e: Event): State {
    if e.Submit? then Process(s, e.op, e.mayWrite, e.now, e.freshId).0 else OtherStep(s, e)
  }

  function OtherStep(s: State, e: Event): State
    requires !e.Submit?
  {
    match e
    case ClaimConflict(deviceId, mayWrite, conflictId) => Claim(s, deviceId, mayWrite, conflictId).0
    case ReleaseConflict(deviceId, mayWrite, conflictId) => Release(s, deviceId, mayWrite, conflictId).0
    case ResolveConflict(input, mayWrite) => Resolve(s, input, mayWrite).0
    case UploadInit(hash, size) => InitUpload(s, hash, size)
    case UploadComplete(hash, storedSize, storedHash) => CompleteUpload(s, hash, storedSize, storedHash)
    case CollectGarbage(minAge, now) => GcUnreferenced(s, minAge, now)
    case Register(deviceId) => s.(journal := RegisterDevice(s.journal, deviceId))
    case Revoke(deviceId) => s.(journal := RevokeDevice(s.journal, deviceId))
    case Lease(fileId, until) => SetActive(s, fileId, until)
  }

  /** A conflict id drawn at random is new and not empty. */
  ghost predicate Enabled(s: State, e: Event) {
    e.Submit? ==> e.freshId !in s.conflicts.at && e.freshId != ""
  }

  function Run(s: State, events: seq<Event>): State {
    if |events| == 0 then s else Step(Run(s, events[..|events| - 1]), events[|events| - 1])
  }

  ghost predicate ValidRun(s: State, events: seq<Event>) {
    |events| > 0 ==>
      ValidRun(s, events[..|events| - 1]) && Enabled(Run(s, events[..|events| - 1]), events[|events| - 1])
  }

  ghost predicate Reachable(s: State) {
    exists events :: ValidRun(Initial, events) && s == Run(Initial, events)
  }

  /** The operation is new, admitted and accepted. */
  predicate Commits(s: State, op: FileOp, mayWrite: bool, now: nat, freshId: string) {
    op.opId !in s.journal.opsById && Admission(s.journal, op, mayWrite).None? && Prepare(s, op, now, freshId).Success?
  }

  /** Either the operation is committed, or nothing but the content table changes. */
  lemma ProcessCases(s: State, op: FileOp, mayWrite: bool, now: nat, freshId: string)
    ensures var (s', r) := Process(s, op, mayWrite, now, freshId);
      if Commits(s, op, mayWrite, now, freshId)
      then (s', r) == (Commit(s, op, Prepare(s, op, now, freshId).value),
                       AckOf(s.journal, op, Prepare(s, op, now, freshId).value))
      else
        || (op.opId in s.journal.opsById && s' == s && r == s.journal.opsById[op.opId].result)
        || (op.opId !in s.journal.opsById && Admission(s.journal, op, mayWrite) == Some(r) && s' == s)
        || (op.opId !in s.journal.opsById && Admission(s.journal, op, mayWrite).None?
              && Prepare(s, op, now, freshId).Failure?
            && s' == s.(content := StoredContent(s.content, op))
            && r == Refusal(op, Prepare(s, op, now, freshId).error))
  {
    hide Prepare, StoredContent, Admission, Commit;
  }

  // ---- what an accepted operation can have written ----

  /** Content replaced: no conflict is recorded and none is pending on the file afterwards. */
  predicate Overwrites(s: State, op: FileOp, e: Effect) {
    ContentKind(op.kind) && e.conflictId.None? && e.conflicts == s.conflicts && e.file.conflictId.None?
        && e.file.fileId == op.fileId
  }

  /** A concurrent edit: the file keeps its content and points at the conflict. */
  predicate Collides(s: State, op: FileOp, e: Effect, freshId: string) {
    && (op.kind.Update? || op.kind.Create?) && op.fileId in s.files.at && e.conflictId.Some?
    && e.file == s.files.at[op.fileId].(conflictId := e.conflictId)
    && (e.conflicts, e.conflictId.value) == CreateConflict(s.conflicts, ConflictOf(op, s.files.at[op.fileId]), freshId)
  }

  /** Rename and delete leave content, conflict and references alone. */
  predicate Relabels(s: State, op: FileOp, e: Effect) {
    && (op.kind.Rename? || op.kind.Delete?) && op.fileId in s.files.at && e.conflictId.None?
    && e.conflicts == s.conflicts && e.refs == s.refs
    && var file := s.files.at[op.fileId];
       && e.file.fileId == file.fileId && e.file.conflictId == file.conflictId && e.file.contentVV == file.contentVV
       && e.file.contentHash == file.contentHash && e.file.blobRef == file.blobRef
       && e.file.activeUntil == file.activeUntil
  }

  /** Files are stored under their own ids. */
  ghost predicate Keyed(files: map<string, StoredFile>) {
    forall f :: f in files ==> files[f].fileId == f
  }

  lemma EffectCases(s: State, op: FileOp, now: nat, freshId: string)
    requires Keyed(s.files.at) && Prepare(s, op, now, freshId).Success?
    ensures var e := Prepare(s, op, now, freshId).value;
      && (Overwrites(s, op, e) || Collides(s, op, e, freshId) || Relabels(s, op, e))
      && (op.fileId in s.files.at && ContentKind(op.kind) ==> !PresentText(s.files.at[op.fileId].conflictId))
      && e.file.fileId == op.fileId
  {
    hide UniquePath, NormalizePath, Dominates, Join, CaseFold, Validate, CreateConflict, UpdatedRefs, SideRef;
  }

  lemma StepKeepsKeyed(s: State, e: Event)
    requires Keyed(s.files.at)
    ensures Keyed(Step(s, e).files.at)
  {
    if e.Submit? {
      ProcessCases(s, e.op, e.mayWrite, e.now, e.freshId);
      if Commits(s, e.op, e.mayWrite, e.now, e.freshId) {
        EffectCases(s, e.op, e.now, e.freshId);
      }
      hide Prepare, Record, StoredContent, Admission;
    } else {
      hide ResolvedContent, ResolvedRefs, JoinedVV, CollectedBlobs;
    }
  }
}
