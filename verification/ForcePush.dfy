/** A force push end to end: the whole plan, sent through the server, is accepted as planned and
    leaves the live vault equal to the local one (apps/plugin/src/sync/force-runner.ts). */
module ForcePush {
  import opened Options
  import opened OrderedMaps
  import opened VersionVectors
  import opened Paths
  import opened Vault
  import opened VaultRuns
  import opened ConflictFreeze
  import opened PathAllocation
  import opened ForceSync

  /** What the client reads from disk, and uploads, for a path. */
  datatype Payload = Payload(hash: Hash, size: nat, inlineText: Option<string>, blobRef: Option<Hash>, encrypted: bool)

  /** The device, the number of its first operation, and what is looked up or drawn on the way. */
  datatype Client = Client(
    device: string, firstSeq: int, opIds: nat -> OpId, applied: string -> VersionVector, payloads: string -> Payload,
    times: nat -> nat, conflictIds: nat -> string)

  // ---- the operations of a plan ----

  /** The version of a forced operation: above the local base and the remote version. */
  function ForcedVV(base: VersionVector, dominateVV: VersionVector, device: string): VersionVector {
    Bump(Join(base, dominateVV), device)
  }

  function OpOf(c: Client, k: nat, a: PushAction): FileOp {
    match a
    case Content(create, fileId, path, fileType, dominateVV) =>
      var payload, base := c.payloads(path), c.applied(fileId);
      FileOp(c.opIds(k), c.device, c.firstSeq + k, fileId, if create then Create else Update, fileType,
             Some(base), Some(ForcedVV(base, dominateVV, c.device)),
             Some(payload.hash), Some(payload.size), payload.encrypted, payload.inlineText, payload.blobRef,
                 Some(path), None)
    case Remove(fileId, path, fileType) =>
      FileOp(c.opIds(k), c.device, c.firstSeq + k, fileId, Delete, fileType, None, None, None, None, false, None, None,
             None, None)
  }

  function EventOf(c: Client, k: nat, a: PushAction): Event {
    Submit(OpOf(c, k, a), true, c.times(k), c.conflictIds(k))
  }

  function Events(c: Client, actions: seq<PushAction>): seq<Event> {
    if actions == [] then []
    else Events(c, actions[..|actions| - 1]) + [EventOf(c, |actions| - 1, actions[|actions| - 1])]
  }

  // ---- the conditions ----

  /** Neither frozen by a conflict nor open in a room. */
  ghost predicate Calm(file: StoredFile, start: nat) {
    !PresentText(file.conflictId) && (file.activeUntil.Some? ==> file.activeUntil.value <= start)
  }

  ghost predicate AllCalm(files: Files, start: nat) {
    forall f :: f in files ==> Calm(files[f], start)
  }

  function SnapshotOf(file: StoredFile): RemoteFile {
    RemoteFile(file.fileId, file.path, file.contentHash, file.contentVV, file.fileType)
  }

  /** The manifest lists every live file once. */
  ghost predicate Listing(remote: seq<RemoteFile>, files: Files) {
    && (forall e :: e in remote ==> e.fileId in files && !files[e.fileId].deleted && e == SnapshotOf(files[e.fileId]))
    && (forall f :: f in files && !files[f].deleted ==> exists e :: e in remote && e.fileId == f)
    && (forall i, k :: 0 <= i < k < |remote| ==> remote[i].fileId != remote[k].fileId)
  }

  ghost predicate GoodPayload(p: Payload, blobs: map<Hash, BlobRecord>) {
    && p.hash.Digest?
    && if p.inlineText.Some? then p.hash == Digest(p.inlineText.value) && p.blobRef.None? && !p.encrypted
       else p.blobRef == Some(p.hash) && p.hash in blobs && blobs[p.hash].state.Verified?
              && blobs[p.hash].size == p.size
  }

  ghost predicate GoodLocal(local: seq<LocalFile>, c: Client, blobs: map<Hash, BlobRecord>) {
    && DistinctLocal(local) && DistinctLocalIds(local)
    && forall l :: l in local ==>
         Canonical(l.path) && c.payloads(l.path).hash == l.hash && GoodPayload(c.payloads(l.path), blobs)
  }

  /** The server waits for the k-th operation of the device and knows none of the ids to come. */
  ghost predicate Awaits(j: Journal, c: Client, k: nat) {
    && c.device in j.devices && !j.devices[c.device].revoked && j.devices[c.device].lastDeviceSeq + 1 == c.firstSeq + k
    && forall i: nat :: k <= i ==> c.opIds(i) !in j.opsById
  }

  ghost predicate GoodClient(c: Client, start: nat) {
    && c.device != "" && (forall f :: CollabDevice(f) != c.device) && c.firstSeq >= 1
    && (forall i: nat :: c.opIds(i) != Uuid("") && c.times(i) >= start)
    && (forall i: nat, k: nat :: i < k ==> c.opIds(i) != c.opIds(k))
  }

  // ---- one accepted operation ----

  lemma ForcedVVDominates(base: VersionVector, dominateVV: VersionVector, device: string)
    ensures StrictlyDominates(ForcedVV(base, dominateVV, device), dominateVV)
    ensures StrictlyDominates(ForcedVV(base, dominateVV, device), base)
  {
    BumpedJoinStrictlyDominates(base, dominateVV, device);
  }

  /** The stored file is what the action is for. */
  ghost predicate Done(a: PushAction, c: Client, file: StoredFile) {
    if a.Remove? then file.deleted
    else LiveAt(file, CaseFold(a.path)) && file.contentHash == Some(c.payloads(a.path).hash)
  }

  /** What the action needs to find. */
  ghost predicate Finds(a: PushAction, s: State) {
    if a.Content? && a.create then
      (a.fileId in s.files.at ==> s.files.at[a.fileId].deleted) && !Occupied(s.files.at, a.path, a.fileId)
    else
      && a.fileId in s.files.at && !s.files.at[a.fileId].deleted
      && (a.Content? ==>
            s.files.at[a.fileId].contentVV == a.dominateVV && s.files.at[a.fileId].pathNormalized == CaseFold(a.path))
  }

  ghost predicate GoodAction(a: PushAction, c: Client, blobs: map<Hash, BlobRecord>) {
    a.fileId != "" && (a.Content? ==> Canonical(a.path) && GoodPayload(c.payloads(a.path), blobs))
  }

  lemma OpIsValid(c: Client, k: nat, a: PushAction, s: State, start: nat)
    requires GoodClient(c, start) && GoodAction(a, c, s.blobs.at) && c.firstSeq + k <= MAX_SAFE_INTEGER
    ensures Validate(s, OpOf(c, k, a)).None?
  {
    hide NormalizePath, ForcedVV;
    assert a.Content? ==> a.path != "" by {
      if a.Content? { EmptyIsNotCanonical(); }
    }
  }

  lemma EmptyIsNotCanonical()
    ensures !Canonical("")
  {
    assert Shaped("") == "";
  }

  /** The effect of the k-th operation on the files. */
  ghost predicate Lands(a: PushAction, c: Client, start: nat, e: Effect) {
    && e.conflictId.None? && e.file.fileId == a.fileId && Done(a, c, e.file) && Calm(e.file, start)
    && (a.Content? && a.create ==> e.file.path == a.path)
  }

  lemma CreateLands(c: Client, k: nat, a: PushAction, s: State, start: nat)
    requires Keyed(s.files.at) && Finds(a, s) && a.Content? && a.create && Canonical(a.path)
    ensures ApplyCreate(s, OpOf(c, k, a), Lookup(s.files, a.fileId), c.conflictIds(k)).Success?
    ensures Lands(a, c, start, ApplyCreate(s, OpOf(c, k, a), Lookup(s.files, a.fileId), c.conflictIds(k)).value)
  {
    hide NormalizePath, CaseFold, UniquePath, UpdatedRefs, ForcedVV, Occupied;
    FreePathIsKept(s.files, a.path, a.fileId);
  }

  lemma UpdateLands(c: Client, k: nat, a: PushAction, s: State, start: nat)
    requires Keyed(s.files.at) && AllCalm(s.files.at, start) && Finds(a, s) && a.Content? && !a.create
    ensures ApplyUpdate(s, OpOf(c, k, a), s.files.at[a.fileId], c.conflictIds(k)).Success?
    ensures Lands(a, c, start, ApplyUpdate(s, OpOf(c, k, a), s.files.at[a.fileId], c.conflictIds(k)).value)
  {
    ForcedVVDominates(c.applied(a.fileId), a.dominateVV, c.device);
    hide Dominates, CaseFold, UpdatedRefs, ForcedVV, CreateConflict, IsConcurrent;
  }

  lemma Prepares(c: Client, k: nat, a: PushAction, s: State, start: nat)
    requires GoodClient(c, start) && GoodAction(a, c, s.blobs.at) && c.firstSeq + k <= MAX_SAFE_INTEGER
    requires Keyed(s.files.at) && AllCalm(s.files.at, start) && Finds(a, s)
    ensures Prepare(s, OpOf(c, k, a), c.times(k), c.conflictIds(k)).Success?
    ensures Lands(a, c, start, Prepare(s, OpOf(c, k, a), c.times(k), c.conflictIds(k)).value)
  {
    OpIsValid(c, k, a, s, start);
    hide Validate, ApplyCreate, ApplyUpdate, ApplyRename, ApplyRestore, Canonical, GoodPayload, CaseFold;
    if a.Remove? {
    } else if a.create {
      CreateLands(c, k, a, s, start);
    } else {
      UpdateLands(c, k, a, s, start);
    }
  }

  lemma IsAdmitted(c: Client, k: nat, a: PushAction, j: Journal, start: nat)
    requires GoodClient(c, start) && Awaits(j, c, k)
    ensures OpOf(c, k, a).opId !in j.opsById && Admission(j, OpOf(c, k, a), true).None? && !Synthetic(OpOf(c, k, a))
  {
    hide ForcedVV;
    assert CollabDevice(a.fileId) != c.device;
  }

  lemma NextAwaited(c: Client, k: nat, a: PushAction, j: Journal, start: nat, e: Effect)
    requires GoodClient(c, start) && Awaits(j, c, k)
    ensures Awaits(Record(j, OpOf(c, k, a), e), c, k + 1)
  {
    hide ForcedVV, InsertBySeq;
    assert CollabDevice(a.fileId) != c.device;
  }

  /** The k-th operation is accepted, without conflict, under the wanted path, and changes its file only. */
  lemma {:induction false} Pushes(c: Client, k: nat, a: PushAction, s: State, start: nat)
    requires GoodClient(c, start) && Awaits(s.journal, c, k) && GoodAction(a, c, s.blobs.at)
    requires c.firstSeq + k <= MAX_SAFE_INTEGER
    requires PathsFine(s) && AllCalm(s.files.at, start) && Finds(a, s)
    ensures var (op, s') := (OpOf(c, k, a), Step(s, EventOf(c, k, a)));
      && Commits(s, op, true, c.times(k), c.conflictIds(k))
      && Lands(a, c, start, Prepare(s, op, c.times(k), c.conflictIds(k)).value)
      && s'.files.at == s.files.at[a.fileId := Prepare(s, op, c.times(k), c.conflictIds(k)).value.file]
      && s'.blobs == s.blobs && Awaits(s'.journal, c, k + 1) && PathsFine(s')
  {
    var op := OpOf(c, k, a);
    Prepares(c, k, a, s, start);
    IsAdmitted(c, k, a, s.journal, start);
    ProcessCases(s, op, true, c.times(k), c.conflictIds(k));
    ProcessKeepsDistinct(s, op, true, c.times(k), c.conflictIds(k));
    StepKeepsKeyed(s, EventOf(c, k, a));
    NextAwaited(c, k, a, s.journal, start, Prepare(s, op, c.times(k), c.conflictIds(k)).value);
    hide Prepare, Admission, Record, StoredContent, Process, Lands, Distinct, Folded, Keyed, Awaits, GoodClient,
         GoodAction, ForcedVV;
  }

  // ---- along the plan ----

  ghost predicate TargetedBefore(actions: seq<PushAction>, k: nat, f: string) {
    exists i :: 0 <= i < k <= |actions| && actions[i].fileId == f
  }

  /** After k operations: their files are done, all others are as at the start. */
  ghost predicate FilesAfter(files0: Files, files: Files, c: Client, actions: seq<PushAction>, k: nat) {
    && k <= |actions|
    && (forall f :: f in files0 ==> f in files)
    && (forall f :: f in files && !TargetedBefore(actions, k, f) ==> f in files0 && files[f] == files0[f])
    && (forall i :: 0 <= i < k ==> actions[i].fileId in files && Done(actions[i], c, files[actions[i].fileId]))
  }

  ghost predicate Progress(s0: State, s: State, c: Client, actions: seq<PushAction>, k: nat, start: nat) {
    && PathsFine(s) && AllCalm(s.files.at, start) && Awaits(s.journal, c, k) && s.blobs == s0.blobs
    && FilesAfter(s0.files.at, s.files.at, c, actions, k)
  }

  lemma UntouchedIsOriginal(files0: Files, files: Files, c: Client, actions: seq<PushAction>, k: nat, f: string)
    requires FilesAfter(files0, files, c, actions, k) && DistinctTargets(actions) && k < |actions|
    requires actions[k].fileId == f && f in files
    ensures f in files0 && files[f] == files0[f]
  {
  }

  lemma ListedPaths(remote: seq<RemoteFile>, files: Files)
    requires Listing(remote, files) && Keyed(files) && Distinct(files) && PathAllocation.Folded(files)
    ensures DistinctRemote(remote)
    ensures forall e :: e in remote ==> CaseFold(e.path) == files[e.fileId].pathNormalized
  {
    hide CaseFold;
    forall i, k | 0 <= i < k < |remote| ensures CaseFold(remote[i].path) != CaseFold(remote[k].path) {
      assert remote[i] in remote && remote[k] in remote;
    }
  }

  /** While a file is to be created, nobody else sits at its path. */
  lemma CreatePathIsFree(files0: Files, files: Files, c: Client, actions: seq<PushAction>, k: nat,
          local: seq<LocalFile>, remote: seq<RemoteFile>)
    requires FilesAfter(files0, files, c, actions, k) && k < |actions| && Listing(remote, files0) && Keyed(files0)
    requires Distinct(files0) && PathAllocation.Folded(files0)
    requires GoodPlan(actions, local, remote) && CreatesSome(actions[k], local, remote)
    ensures !Occupied(files, actions[k].path, actions[k].fileId)
  {
    ListedPaths(remote, files0);
    hide CaseFold, DistinctRemote, Distinct, UpdatesSome, RemovesStray, Handled;
    var a := actions[k];
    var l :| l in local && CreatesMissing(a, l, remote);
    forall f | f in files && f != a.fileId ensures !LiveAt(files[f], CaseFold(a.path)) {
      if TargetedBefore(actions, k, f) {
        var i :| 0 <= i < k && actions[i].fileId == f;
        assert Done(actions[i], c, files[f]);
      } else if !files[f].deleted {
        var e :| e in remote && e.fileId == f;
      }
    }
  }

  lemma FindsWhatItNeeds(s0: State, s: State, c: Client, actions: seq<PushAction>, k: nat, start: nat,
          local: seq<LocalFile>, remote: seq<RemoteFile>)
    requires PathsFine(s0) && Progress(s0, s, c, actions, k, start) && k < |actions| && Listing(remote, s0.files.at)
    requires GoodPlan(actions, local, remote)
    ensures Finds(actions[k], s)
  {
    var a := actions[k];
    ListedPaths(remote, s0.files.at);
    assert UpdatesSome(a, local, remote) || CreatesSome(a, local, remote) || RemovesStray(a, local, remote);
    if a.fileId in s.files.at { UntouchedIsOriginal(s0.files.at, s.files.at, c, actions, k, a.fileId); }
    if CreatesSome(a, local, remote) { CreatePathIsFree(s0.files.at, s.files.at, c, actions, k, local, remote); }
    hide CaseFold, DistinctRemote, Distinct, PathAllocation.Folded, Occupied, AllCalm, Awaits, Done;
    if UpdatesSome(a, local, remote) {
      var l, e :| l in local && e in remote && UpdatesMatch(a, l, e);
      assert e.fileId in s.files.at;
    } else if CreatesSome(a, local, remote) {
      var l :| l in local && CreatesMissing(a, l, remote);
    }
  }

  lemma ActionIsGood(a: PushAction, c: Client, blobs: map<Hash, BlobRecord>, files0: Files, local: seq<LocalFile>,
          remote: seq<RemoteFile>)
    requires UpdatesSome(a, local, remote) || CreatesSome(a, local, remote) || RemovesStray(a, local, remote)
    requires GoodLocal(local, c, blobs) && Listing(remote, files0) && "" !in files0
    ensures GoodAction(a, c, blobs)
  {
    hide CaseFold, Canonical, GoodPayload, DistinctLocal, DistinctLocalIds;
    if UpdatesSome(a, local, remote) {
      var l, e :| l in local && e in remote && UpdatesMatch(a, l, e);
    } else if CreatesSome(a, local, remote) {
      var l :| l in local && CreatesMissing(a, l, remote);
    }
  }

  lemma FilesGoOn(files0: Files, files: Files, c: Client, actions: seq<PushAction>, k: nat, file: StoredFile)
    requires FilesAfter(files0, files, c, actions, k) && DistinctTargets(actions) && k < |actions|
    requires Done(actions[k], c, file)
    ensures FilesAfter(files0, files[actions[k].fileId := file], c, actions, k + 1)
  {
    hide Done;
    var files' := files[actions[k].fileId := file];
    forall f | f in files' && !TargetedBefore(actions, k + 1, f) ensures f in files0 && files'[f] == files0[f] {
      assert actions[k].fileId != f;
      assert !TargetedBefore(actions, k, f);
    }
  }

  lemma CalmGoesOn(files: Files, start: nat, f: string, file: StoredFile)
    requires AllCalm(files, start) && Calm(file, start)
    ensures AllCalm(files[f := file], start)
  {
  }

  lemma ProgressStep(s0: State, s: State, c: Client, actions: seq<PushAction>, k: nat, start: nat,
          local: seq<LocalFile>, remote: seq<RemoteFile>)
    requires PathsFine(s0) && "" !in s0.files.at && Listing(remote, s0.files.at) && GoodPlan(actions, local, remote)
    requires GoodLocal(local, c, s0.blobs.at)
    requires GoodClient(c, start) && k < |actions| && c.firstSeq + k <= MAX_SAFE_INTEGER
    requires Progress(s0, s, c, actions, k, start)
    ensures var op := OpOf(c, k, actions[k]);
      && Commits(s, op, true, c.times(k), c.conflictIds(k))
      && Lands(actions[k], c, start, Prepare(s, op, c.times(k), c.conflictIds(k)).value)
    ensures Progress(s0, Step(s, EventOf(c, k, actions[k])), c, actions, k + 1, start)
  {
    var a := actions[k];
    FindsWhatItNeeds(s0, s, c, actions, k, start, local, remote);
    ActionIsGood(a, c, s0.blobs.at, s0.files.at, local, remote);
    Pushes(c, k, a, s, start);
    var file := Prepare(s, OpOf(c, k, a), c.times(k), c.conflictIds(k)).value.file;
    assert Done(a, c, file) && Calm(file, start);
    hide Step, PathsFine, Awaits, Prepare, Commits, Done, Calm, Listing, GoodLocal, GoodClient, Finds, GoodAction;
    FilesGoOn(s0.files.at, s.files.at, c, actions, k, file);
    CalmGoesOn(s.files.at, start, a.fileId, file);
  }

  // ---- the whole plan ----

  /** Every operation of the plan is accepted when its turn comes, without conflict, and a created
      file gets the local path without a suffix. */
  ghost predicate AllAccepted(s: State, c: Client, actions: seq<PushAction>, start: nat) {
    actions != [] ==>
      var k, a := |actions| - 1, actions[|actions| - 1];
      var before := Run(s, Events(c, actions[..k]));
      var op := OpOf(c, k, a);
      && AllAccepted(s, c, actions[..k], start)
      && Commits(before, op, true, c.times(k), c.conflictIds(k))
      && Lands(a, c, start, Prepare(before, op, c.times(k), c.conflictIds(k)).value)
  }

  lemma EventsUnfold(s: State, c: Client, actions: seq<PushAction>, k: nat)
    requires k < |actions|
    ensures Events(c, actions[..k + 1]) == Events(c, actions[..k]) + [EventOf(c, k, actions[k])]
    ensures Run(s, Events(c, actions[..k + 1])) == Step(Run(s, Events(c, actions[..k])), EventOf(c, k, actions[k]))
  {
    hide Step, EventOf;
    assert actions[..k + 1][..k] == actions[..k];
    var before, e := Events(c, actions[..k]), EventOf(c, k, actions[k]);
    assert (before + [e])[..|before|] == before;
  }

  lemma NothingPushed(s: State, c: Client, actions: seq<PushAction>, start: nat)
    requires PathsFine(s) && AllCalm(s.files.at, start) && Awaits(s.journal, c, 0)
    ensures AllAccepted(s, c, actions[..0], start) && Progress(s, Run(s, Events(c, actions[..0])), c, actions, 0, start)
  {
    hide PathsFine, AllCalm, Awaits, Step, EventOf;
    assert Events(c, actions[..0]) == [] && Run(s, []) == s;
    assert FilesAfter(s.files.at, s.files.at, c, actions, 0);
  }

  lemma {:induction false} AcceptedOneMore(s: State, c: Client, actions: seq<PushAction>, k: nat, start: nat)
    requires k < |actions| && AllAccepted(s, c, actions[..k], start)
    requires var before, op := Run(s, Events(c, actions[..k])), OpOf(c, k, actions[k]);
      && Commits(before, op, true, c.times(k), c.conflictIds(k))
      && Lands(actions[k], c, start, Prepare(before, op, c.times(k), c.conflictIds(k)).value)
    ensures AllAccepted(s, c, actions[..k + 1], start)
  {
    hide Run, Events, Commits, Lands, Prepare, OpOf;
    assert actions[..k + 1][..k] == actions[..k];
  }

  lemma {:induction false} PlanProgresses(s: State, c: Client, actions: seq<PushAction>, k: nat, start: nat,
          local: seq<LocalFile>, remote: seq<RemoteFile>)
    requires PathsFine(s) && AllCalm(s.files.at, start) && "" !in s.files.at && Awaits(s.journal, c, 0)
    requires Listing(remote, s.files.at) && GoodPlan(actions, local, remote) && GoodLocal(local, c, s.blobs.at)
    requires GoodClient(c, start) && k <= |actions| && c.firstSeq + |actions| <= MAX_SAFE_INTEGER
    ensures AllAccepted(s, c, actions[..k], start) && Progress(s, Run(s, Events(c, actions[..k])), c, actions, k, start)
    decreases k
  {
    hide *;
    if k == 0 {
      NothingPushed(s, c, actions, start);
    } else {
      PlanProgresses(s, c, actions, k - 1, start, local, remote);
      ProgressStep(s, Run(s, Events(c, actions[..k - 1])), c, actions, k - 1, start, local, remote);
      AcceptedOneMore(s, c, actions, k - 1, start);
      EventsUnfold(s, c, actions, k - 1);
    }
  }

  // ---- the outcome ----

  /** Path and content hash of every live file. */
  ghost function LiveContents(files: Files): set<(string, Option<Hash>)> {
    set f | f in files && !files[f].deleted :: (files[f].pathNormalized, files[f].contentHash)
  }

  ghost function LocalContents(local: seq<LocalFile>): set<(string, Option<Hash>)> {
    set l | l in local :: (CaseFold(l.path), Some(l.hash))
  }

  lemma SamePathSameFile(local: seq<LocalFile>, x: LocalFile, y: LocalFile)
    requires DistinctLocal(local) && x in local && y in local && CaseFold(x.path) == CaseFold(y.path)
    ensures x == y
  {
    hide CaseFold;
  }

  /** A content action at the path of l brought the server l's hash. */
  lemma ActionBringsHash(a: PushAction, l: LocalFile, local: seq<LocalFile>, remote: seq<RemoteFile>, c: Client,
          blobs: map<Hash, BlobRecord>)
    requires a.Content? && (UpdatesSome(a, local, remote) || CreatesSome(a, local, remote))
    requires GoodLocal(local, c, blobs) && l in local
    requires CaseFold(a.path) == CaseFold(l.path)
    ensures a.path == l.path && c.payloads(a.path).hash == l.hash
  {
    hide CaseFold, Canonical, GoodPayload;
    if UpdatesSome(a, local, remote) {
      var x, e :| x in local && e in remote && UpdatesMatch(a, x, e);
      SamePathSameFile(local, x, l);
    } else {
      var x :| x in local && CreatesMissing(a, x, remote);
      SamePathSameFile(local, x, l);
    }
  }

  ghost predicate HoldsLocal(files: Files, l: LocalFile) {
    exists f :: f in files && LiveAt(files[f], CaseFold(l.path)) && files[f].contentHash == Some(l.hash)
  }

  /** The remote file that already has l's content is the target of no action. */
  lemma RightFileIsUntouched(actions: seq<PushAction>, l: LocalFile, e: RemoteFile, local: seq<LocalFile>,
          remote: seq<RemoteFile>)
    requires GoodPlan(actions, local, remote) && DistinctLocal(local) && DistinctRemote(remote) && l in local
    requires e in remote
    requires CaseFold(e.path) == CaseFold(l.path) && e.contentHash == Some(l.hash)
    ensures !TargetedBefore(actions, |actions|, e.fileId)
  {
    hide CaseFold, Handled;
    forall i | 0 <= i < |actions| ensures actions[i].fileId != e.fileId {
      var a := actions[i];
      assert UpdatesSome(a, local, remote) || CreatesSome(a, local, remote) || RemovesStray(a, local, remote);
      if UpdatesSome(a, local, remote) {
        var x, y :| x in local && y in remote && UpdatesMatch(a, x, y);
        if CaseFold(x.path) == CaseFold(l.path) { SamePathSameFile(local, x, l); }
      }
    }
  }

  lemma {:induction false} LocalIsHeld(files0: Files, files: Files, c: Client, blobs: map<Hash, BlobRecord>,
          actions: seq<PushAction>, l: LocalFile, local: seq<LocalFile>, remote: seq<RemoteFile>)
    requires FilesAfter(files0, files, c, actions, |actions|) && Listing(remote, files0) && Keyed(files0)
    requires Distinct(files0) && PathAllocation.Folded(files0)
    requires GoodPlan(actions, local, remote) && GoodLocal(local, c, blobs) && l in local
    ensures HoldsLocal(files, l)
  {
    ListedPaths(remote, files0);
    assert Handled(l, actions, remote);
    hide CaseFold, DistinctRemote, Distinct, PathAllocation.Folded, Canonical, GoodPayload, UpdatesSome, CreatesSome,
         RemovesStray, DistinctLocal, DistinctLocalIds;
    if e :| e in remote && CaseFold(e.path) == CaseFold(l.path) && e.contentHash == Some(l.hash) {
      RightFileIsUntouched(actions, l, e, local, remote);
      assert LiveAt(files[e.fileId], CaseFold(l.path));
    } else {
      var a :| a in actions && a.Content? && a.path == l.path;
      var i :| 0 <= i < |actions| && actions[i] == a;
      assert Done(actions[i], c, files[a.fileId]);
    }
  }

  lemma ActionAtRemote(a: PushAction, e: RemoteFile, local: seq<LocalFile>, remote: seq<RemoteFile>)
    requires a.Content? && (UpdatesSome(a, local, remote) || CreatesSome(a, local, remote)) && DistinctRemote(remote)
    requires e in remote
    requires CaseFold(a.path) == CaseFold(e.path)
    ensures a.fileId == e.fileId
  {
    hide CaseFold;
  }

  /** An untouched live file sits where a local file with its content is. */
  lemma UntouchedIsLocal(e: RemoteFile, actions: seq<PushAction>, local: seq<LocalFile>,
          remote: seq<RemoteFile>) returns (l: LocalFile)
    requires GoodPlan(actions, local, remote) && DistinctLocal(local) && DistinctRemote(remote) && e in remote
    requires !TargetedBefore(actions, |actions|, e.fileId)
    ensures l in local && CaseFold(l.path) == CaseFold(e.path) && e.contentHash == Some(l.hash)
  {
    hide CaseFold, DistinctLocal;
    assert CaseFold(e.path) in FoldedPaths(local);
    l :| l in local && CaseFold(l.path) == CaseFold(e.path);
    assert Handled(l, actions, remote);
    forall a | a in actions && a.Content? && a.path == l.path ensures a.fileId == e.fileId {
      ActionAtRemote(a, e, local, remote);
    }
    hide UpdatesSome, CreatesSome, RemovesStray;
    var y :| y in remote && CaseFold(y.path) == CaseFold(l.path) && y.contentHash == Some(l.hash);
    assert y == e;
  }

  lemma LiveIsLocal(files0: Files, files: Files, c: Client, blobs: map<Hash, BlobRecord>, actions: seq<PushAction>,
          f: string, local: seq<LocalFile>, remote: seq<RemoteFile>)
    requires FilesAfter(files0, files, c, actions, |actions|) && Listing(remote, files0) && Keyed(files0)
    requires Distinct(files0) && PathAllocation.Folded(files0)
    requires GoodPlan(actions, local, remote) && GoodLocal(local, c, blobs) && f in files && !files[f].deleted
    ensures (files[f].pathNormalized, files[f].contentHash) in LocalContents(local)
  {
    ListedPaths(remote, files0);
    hide CaseFold, DistinctRemote, Distinct, PathAllocation.Folded, Canonical, GoodPayload, Handled;
    if TargetedBefore(actions, |actions|, f) {
      var i :| 0 <= i < |actions| && actions[i].fileId == f;
      assert Done(actions[i], c, files[f]);
      var a := actions[i];
      assert UpdatesSome(a, local, remote) || CreatesSome(a, local, remote);
      ActionHasFile(a, local, remote);
      var l :| l in local && l.path == a.path;
      ActionBringsHash(a, l, local, remote, c, blobs);
    } else {
      var e :| e in remote && e.fileId == f;
      var l := UntouchedIsLocal(e, actions, local, remote);
    }
  }

  lemma ActionHasFile(a: PushAction, local: seq<LocalFile>, remote: seq<RemoteFile>)
    requires UpdatesSome(a, local, remote) || CreatesSome(a, local, remote)
    ensures exists l :: l in local && l.path == a.path
  {
    hide CaseFold;
    if UpdatesSome(a, local, remote) {
      var x, e :| x in local && e in remote && UpdatesMatch(a, x, e);
    } else {
      var x :| x in local && CreatesMissing(a, x, remote);
    }
  }

  lemma MirrorsLocal(files0: Files, files: Files, c: Client, blobs: map<Hash, BlobRecord>, actions: seq<PushAction>,
          local: seq<LocalFile>, remote: seq<RemoteFile>)
    requires FilesAfter(files0, files, c, actions, |actions|) && Listing(remote, files0) && Keyed(files0)
    requires Distinct(files0) && PathAllocation.Folded(files0)
    requires GoodPlan(actions, local, remote) && GoodLocal(local, c, blobs)
    ensures LiveContents(files) == LocalContents(local)
  {
    hide FilesAfter, Listing, Keyed, Distinct, PathAllocation.Folded, GoodPlan, GoodLocal, CaseFold;
    forall x | x in LiveContents(files) ensures x in LocalContents(local) {
      var f :| f in files && !files[f].deleted && x == (files[f].pathNormalized, files[f].contentHash);
      LiveIsLocal(files0, files, c, blobs, actions, f, local, remote);
    }
    forall x | x in LocalContents(local) ensures x in LiveContents(files) {
      var l :| l in local && x == (CaseFold(l.path), Some(l.hash));
      LocalIsHeld(files0, files, c, blobs, actions, l, local, remote);
      assert HoldsLocal(files, l);
    }
  }

  /** The server at the start: tidy paths, nothing frozen or active, waiting for the client's next
      operation. */
  ghost predicate ReadyServer(s: State, c: Client, start: nat) {
    PathsFine(s) && AllCalm(s.files.at, start) && "" !in s.files.at && Awaits(s.journal, c, 0)
  }

  /** The whole plan of a force push is accepted operation by operation, without conflict and
      without a path suffix, and leaves exactly the local paths and hashes live. */
  lemma {:induction false} ForcePushMirrorsLocal(s: State, c: Client, local: seq<LocalFile>, remote: seq<RemoteFile>,
          newIds: Supply, start: nat)
    requires ReadyServer(s, c, start) && Listing(remote, s.files.at)
    requires GoodLocal(local, c, s.blobs.at) && FreshIds(newIds, local, s.files.at.Keys)
    requires GoodClient(c, start) && c.firstSeq + |PlanOf(local, remote, newIds).actions| <= MAX_SAFE_INTEGER
    ensures var actions := PlanOf(local, remote, newIds).actions;
      var s' := Run(s, Events(c, actions));
      && AllAccepted(s, c, actions, start)
      && LiveContents(s'.files.at) == LocalContents(local) && Distinct(s'.files.at)
  {
    hide Run, Events, PlanOf, CaseFold, AllAccepted, GoodClient, Distinct, PathAllocation.Folded, Awaits, Canonical,
         GoodPayload, LiveContents, LocalContents, AllCalm;
    var actions := PlanOf(local, remote, newIds).actions;
    ListedPaths(remote, s.files.at);
    ListedAreFresh(remote, s.files.at, local, newIds);
    PlanIsGood(local, remote, newIds);
    hide DistinctRemote, FreshIds, GoodPlan, Listing;
    PlanProgresses(s, c, actions, |actions|, start, local, remote);
    assert actions[..|actions|] == actions;
    MirrorsLocal(s.files.at, Run(s, Events(c, actions)).files.at, c, s.blobs.at, actions, local, remote);
  }

  lemma ListedAreFresh(remote: seq<RemoteFile>, files: Files, local: seq<LocalFile>, newIds: Supply)
    requires Listing(remote, files) && FreshIds(newIds, local, files.Keys)
    ensures FreshIds(newIds, local, FileIds(remote))
  {
  }

  lemma HeldNeedsNothing(a: PushAction, files: Files, local: seq<LocalFile>, remote: seq<RemoteFile>)
    requires Listing(remote, files) && Keyed(files) && Distinct(files) && PathAllocation.Folded(files)
    requires DistinctLocal(local)
    requires LiveContents(files) == LocalContents(local)
    ensures !UpdatesSome(a, local, remote) && !CreatesSome(a, local, remote) && !RemovesStray(a, local, remote)
  {
    ListedPaths(remote, files);
    hide CaseFold, Distinct, PathAllocation.Folded, DistinctRemote;
    forall e | e in remote ensures exists l ::
      l in local && CaseFold(l.path) == CaseFold(e.path) && e.contentHash == Some(l.hash)
    {
      assert (files[e.fileId].pathNormalized, files[e.fileId].contentHash) in LiveContents(files);
    }
    forall l | l in local ensures exists e :: e in remote && CaseFold(l.path) == CaseFold(e.path) {
      assert (CaseFold(l.path), Some(l.hash)) in LiveContents(files);
      var f :| f in files && !files[f].deleted && files[f].pathNormalized == CaseFold(l.path);
      var e :| e in remote && e.fileId == f;
    }
    hide LiveContents, LocalContents;
    forall l, e | l in local && e in remote && CaseFold(l.path) == CaseFold(e.path)
      ensures e.contentHash == Some(l.hash)
    {
      var x :| x in local && CaseFold(x.path) == CaseFold(e.path) && e.contentHash == Some(x.hash);
      SamePathSameFile(local, x, l);
    }
  }

  /** Planning again finds something to do exactly when the live vault differs from the local one;
      in particular nothing is left to do after a force push. */
  lemma EmptyPlanMeansMirrored(files: Files, local: seq<LocalFile>, remote: seq<RemoteFile>, newIds: Supply, c: Client,
          blobs: map<Hash, BlobRecord>)
    requires Keyed(files) && Distinct(files) && PathAllocation.Folded(files) && Listing(remote, files)
    requires GoodLocal(local, c, blobs) && FreshIds(newIds, local, files.Keys)
    ensures PlanOf(local, remote, newIds).actions == [] <==> LiveContents(files) == LocalContents(local)
  {
    hide PlanOf, CaseFold, Distinct, PathAllocation.Folded, Canonical, GoodPayload, LiveContents, LocalContents,
         DistinctRemote;
    var actions := PlanOf(local, remote, newIds).actions;
    ListedPaths(remote, files);
    ListedAreFresh(remote, files, local, newIds);
    PlanIsGood(local, remote, newIds);
    hide FreshIds;
    if actions == [] {
      assert FilesAfter(files, files, c, actions, 0);
      MirrorsLocal(files, files, c, blobs, actions, local, remote);
    } else {
      var a := actions[0];
      assert UpdatesSome(a, local, remote) || CreatesSome(a, local, remote) || RemovesStray(a, local, remote);
      hide GoodPlan, UpdatesSome, CreatesSome, RemovesStray;
      if LiveContents(files) == LocalContents(local) {
        HeldNeedsNothing(a, files, local, remote);
      }
    }
  }
}
