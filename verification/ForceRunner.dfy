/** Running a force push (apps/plugin/src/sync/force-runner.ts): the local index is pointed at the
    remote files it adopts, then the plan is sent one operation at a time. */
module ForceRunner {
  import opened Options
  import opened VersionVectors
  import opened Paths
  import opened Vault
  import opened VaultRuns
  import opened VaultStore
  import opened ForceSync
  import opened ForcePush

  // ---- the local index (apps/plugin/src/localindex/index.ts) ----

  datatype IndexEntry = IndexEntry(
    fileId: string, path: string, fileType: FileType, contentHash: Option<Hash>, appliedVV: VersionVector,
    deleted: bool)

  function ByFileId(files: seq<IndexEntry>, fileId: string): (r: Option<IndexEntry>)
    ensures r.Some? ==> r.value.fileId == fileId
  {
    if files == [] then None else if files[0].fileId == fileId then Some(files[0]) else ByFileId(files[1..], fileId)
  }

  /** The first entry of the same id is replaced; otherwise the entry is added at the end. */
  function Upserted(files: seq<IndexEntry>, e: IndexEntry): seq<IndexEntry> {
    if files == [] then [e]
    else if files[0].fileId == e.fileId then [e] + files[1..]
    else [files[0]] + Upserted(files[1..], e)
  }

  function Without(files: seq<IndexEntry>, fileId: string): seq<IndexEntry> {
    if files == [] then [] else (if files[0].fileId != fileId then [files[0]] else []) + Without(files[1..], fileId)
  }

  lemma {:induction false} UpsertedAt(files: seq<IndexEntry>, e: IndexEntry, fileId: string)
    ensures ByFileId(Upserted(files, e), fileId) == if fileId == e.fileId then Some(e) else ByFileId(files, fileId)
  {
    if files != [] {
      UpsertedAt(files[1..], e, fileId);
      assert ([files[0]] + Upserted(files[1..], e))[1..] == Upserted(files[1..], e);
      assert ([e] + files[1..])[1..] == files[1..];
    }
  }

  lemma {:induction false} UpsertedWhere(files: seq<IndexEntry>, e: IndexEntry, idx: nat)
    requires idx <= |files| && forall k :: 0 <= k < idx ==> files[k].fileId != e.fileId
    requires idx < |files| ==> files[idx].fileId == e.fileId
    ensures Upserted(files, e) == if idx < |files| then files[idx := e] else files + [e]
  {
    if idx > 0 {
      var rest := files[1..];
      UpsertedWhere(rest, e, idx - 1);
      assert files == [files[0]] + rest;
      if idx < |files| {
        assert [files[0]] + rest[idx - 1 := e] == files[idx := e];
      } else {
        assert [files[0]] + (rest + [e]) == files + [e];
      }
    } else if files != [] {
      assert [e] + files[1..] == files[0 := e];
    } else {
      assert files + [e] == [e];
    }
  }

  lemma {:induction false} WithoutAt(files: seq<IndexEntry>, gone: string, fileId: string)
    ensures ByFileId(Without(files, gone), fileId) == if fileId == gone then None else ByFileId(files, fileId)
  {
    if files != [] {
      WithoutAt(files[1..], gone, fileId);
      var rest := Without(files[1..], gone);
      if files[0].fileId != gone {
        assert Without(files, gone) == [files[0]] + rest && ([files[0]] + rest)[1..] == rest;
      } else {
        assert Without(files, gone) == [] + rest == rest;
      }
    }
  }

  function VersionIn(files: seq<IndexEntry>, fileId: string): VersionVector {
    var e := ByFileId(files, fileId);
    if e.Some? then e.value.appliedVV else map[]
  }

  class LocalIndexStore {
    var files: seq<IndexEntry>

    constructor (files: seq<IndexEntry>)
      ensures this.files == files
    {
      this.files := files;
    }

    method UpsertFile(e: IndexEntry)
      modifies this
      ensures files == Upserted(old(files), e)
    {
      var idx := 0;
      while idx < |files| && files[idx].fileId != e.fileId
        invariant idx <= |files| && forall k :: 0 <= k < idx ==> files[k].fileId != e.fileId
      {
        idx := idx + 1;
      }
      UpsertedWhere(files, e, idx);
      files := if idx < |files| then files[idx := e] else files + [e];
    }

    method RemoveFileId(fileId: string)
      modifies this
      ensures files == Without(old(files), fileId)
    {
      files := Without(files, fileId);
    }

    method MarkDeleted(fileId: string)
      modifies this
      ensures var e := ByFileId(old(files), fileId);
        files == if e.Some? then Upserted(old(files), e.value.(deleted := true)) else old(files)
    {
      var e := ByFileId(files, fileId);
      if e.Some? { UpsertFile(e.value.(deleted := true)); }
    }
  }

  // ---- adoption ----

  /** The entry of the old id goes, and the remote file's id takes the path. */
  function Adopted(files: seq<IndexEntry>, a: Adoption, found: RemoteFile): seq<IndexEntry> {
    Upserted(if PresentText(a.oldFileId) then Without(files, a.oldFileId.value) else files,
             IndexEntry(a.newFileId, a.path, found.fileType, found.contentHash, found.contentVV, false))
  }

  function AdoptAll(files: seq<IndexEntry>, adoptions: seq<Adoption>,
          byPath: map<string, RemoteFile>): seq<IndexEntry> {
    if adoptions == [] then files
    else
      var before, a := AdoptAll(files, adoptions[..|adoptions| - 1], byPath), adoptions[|adoptions| - 1];
      if CaseFold(a.path) in byPath then Adopted(before, a, byPath[CaseFold(a.path)]) else before
  }

  /** The index leads from the adopted id to the path. */
  ghost predicate InPlace(files: seq<IndexEntry>, a: Adoption) {
    var e := ByFileId(files, a.newFileId);
    e.Some? && e.value.path == a.path && !e.value.deleted
  }

  lemma AdoptedAt(files: seq<IndexEntry>, a: Adoption, found: RemoteFile, fileId: string)
    ensures ByFileId(Adopted(files, a, found), fileId) ==
      if fileId == a.newFileId then
        Some(IndexEntry(a.newFileId, a.path, found.fileType, found.contentHash, found.contentVV, false))
      else if PresentText(a.oldFileId) && fileId == a.oldFileId.value then None
      else ByFileId(files, fileId)
  {
    var kept := if PresentText(a.oldFileId) then Without(files, a.oldFileId.value) else files;
    if PresentText(a.oldFileId) { WithoutAt(files, a.oldFileId.value, fileId); }
    UpsertedAt(kept, IndexEntry(a.newFileId, a.path, found.fileType, found.contentHash, found.contentVV, false),
               fileId);
  }

  /** The local file sits at the path of a remote file with another id. */
  predicate Adopts(l: LocalFile, byPath: map<string, RemoteFile>) {
    CaseFold(l.path) in byPath && l.fileId != Some(byPath[CaseFold(l.path)].fileId)
  }

  function AdoptionFor(l: LocalFile, byPath: map<string, RemoteFile>): Adoption
    requires CaseFold(l.path) in byPath
  {
    Adoption(l.path, l.fileId, byPath[CaseFold(l.path)].fileId)
  }

  function AdoptionsOf(local: seq<LocalFile>, byPath: map<string, RemoteFile>): seq<Adoption> {
    if local == [] then []
    else
      var l := local[|local| - 1];
      AdoptionsOf(local[..|local| - 1], byPath) + (if Adopts(l, byPath) then [AdoptionFor(l, byPath)] else [])
  }

  lemma {:induction false} PlannedAdoptions(local: seq<LocalFile>, remote: seq<RemoteFile>, newIds: Supply)
    ensures PlanFiles(local, ByFoldedPath(remote), FileIds(remote), newIds, 0).1
      == AdoptionsOf(local, ByFoldedPath(remote))
  {
    hide CaseFold, ByFoldedPath, FileIds;
    if local != [] { PlannedAdoptions(local[..|local| - 1], remote, newIds); }
  }

  ghost predicate OneIdEach(byPath: map<string, RemoteFile>) {
    && (forall p :: p in byPath ==> byPath[p].fileId != "")
    && (forall p, q :: p in byPath && q in byPath && p != q ==> byPath[p].fileId != byPath[q].fileId)
  }

  lemma ListedOnce(remote: seq<RemoteFile>)
    requires DistinctRemote(remote) && forall e :: e in remote ==> e.fileId != ""
    ensures OneIdEach(ByFoldedPath(remote))
  {
    ByFoldedPathAt(remote);
    hide CaseFold, ByFoldedPath;
  }

  lemma {:induction false} LoopKeepsAdoption(files: seq<IndexEntry>, local: seq<LocalFile>,
          byPath: map<string, RemoteFile>,
          i: nat)
    requires DistinctLocal(local) && OneIdEach(byPath) && i < |local| && Adopts(local[i], byPath)
    ensures InPlace(AdoptAll(files, AdoptionsOf(local, byPath), byPath), AdoptionFor(local[i], byPath)) <==>
      forall k :: i < k < |local| && Adopts(local[k], byPath) ==>
        local[k].fileId != Some(byPath[CaseFold(local[i].path)].fileId)
  {
    hide CaseFold, Adopted;
    var n := |local| - 1;
    var taken, last, before := AdoptionFor(local[i], byPath), local[n], AdoptionsOf(local[..n], byPath);
    if Adopts(last, byPath) {
      var a := AdoptionFor(last, byPath);
      assert (before + [a])[..|before|] == before;
      AdoptedAt(AdoptAll(files, before, byPath), a, byPath[CaseFold(last.path)], taken.newFileId);
    } else {
      assert before + [] == before;
    }
    if i < n {
      LoopKeepsAdoption(files, local[..n], byPath, i);
      assert forall k :: 0 <= k < n ==> local[..n][k] == local[k];
    }
  }

  /** After the loop over the planned adoptions the index leads from the remote id that local file i
      took to its path, exactly if no adopted local file further on had that id before. */
  lemma {:induction false} AdoptionSurvives(files: seq<IndexEntry>, local: seq<LocalFile>, remote: seq<RemoteFile>,
          newIds: Supply, i: nat)
    requires DistinctLocal(local) && DistinctRemote(remote) && forall e :: e in remote ==> e.fileId != ""
    requires i < |local| && Adopts(local[i], ByFoldedPath(remote))
    ensures var byPath := ByFoldedPath(remote);
      var taken := byPath[CaseFold(local[i].path)].fileId;
      && Adoption(local[i].path, local[i].fileId, taken) in PlanOf(local, remote, newIds).adoptions
      && (InPlace(AdoptAll(files, PlanOf(local, remote, newIds).adoptions, byPath),
                  Adoption(local[i].path, local[i].fileId, taken)) <==>
          forall k :: i < k < |local| && Adopts(local[k], byPath) ==> local[k].fileId != Some(taken))
  {
    ListedOnce(remote);
    PlannedAdoptions(local, remote, newIds);
    AdoptionIsPlanned(local, ByFoldedPath(remote), i);
    hide CaseFold, AdoptAll, InPlace, PlanFiles, AdoptionsOf, ByFoldedPath;
    LoopKeepsAdoption(files, local, ByFoldedPath(remote), i);
  }

  lemma {:induction false} AdoptionIsPlanned(local: seq<LocalFile>, byPath: map<string, RemoteFile>, i: nat)
    requires i < |local| && Adopts(local[i], byPath)
    ensures AdoptionFor(local[i], byPath) in AdoptionsOf(local, byPath)
  {
    hide CaseFold;
    if i < |local| - 1 { AdoptionIsPlanned(local[..|local| - 1], byPath, i); }
  }

  const SWAPPED_LOCAL := [LocalFile("p", Digest("x"), Note, Some("1")), LocalFile("q", Digest("y"), Note, Some("2"))]
  const SWAPPED_REMOTE := [RemoteFile("2", "p", Some(Digest("x")), map[], Note),
                           RemoteFile("1", "q", Some(Digest("y")), map[], Note)]
  const SWAPS := [Adoption("p", Some("1"), "2"), Adoption("q", Some("2"), "1")]

  lemma SwappedIndex()
    ensures CaseFold("p") == "p" && CaseFold("q") == "q" && "p" != "q" && "1" != "2"
    ensures ByFoldedPath(SWAPPED_REMOTE) == map["p" := SWAPPED_REMOTE[0], "q" := SWAPPED_REMOTE[1]]
  {
    assert CaseFold("p") == "p" && CaseFold("q") == "q";
    hide CaseFold;
    assert "p"[0] != "q"[0] && "1"[0] != "2"[0];
    assert SWAPPED_REMOTE[..1] == [SWAPPED_REMOTE[0]] && [SWAPPED_REMOTE[0]][..0] == [];
    assert ByFoldedPath([]) == map[];
    assert ByFoldedPath([SWAPPED_REMOTE[0]]) == map["p" := SWAPPED_REMOTE[0]];
  }

  lemma SwappedPlan(newIds: Supply)
    ensures PlanOf(SWAPPED_LOCAL, SWAPPED_REMOTE, newIds) == PushPlan([], SWAPS)
  {
    SwappedIndex();
    var byPath, ids, l1, l2 := ByFoldedPath(SWAPPED_REMOTE), FileIds(SWAPPED_REMOTE), SWAPPED_LOCAL[0],
        SWAPPED_LOCAL[1];
    hide CaseFold, ByFoldedPath;
    assert PlanFile(l1, byPath, ids, newIds(0)) == ([], [SWAPS[0]], 0)
      && PlanFile(l2, byPath, ids, newIds(0)) == ([], [SWAPS[1]], 0);
    hide PlanFile;
    var none: seq<PushAction> := [];
    assert none + none == none && [] + [SWAPS[0]] == [SWAPS[0]] && [SWAPS[0]] + [SWAPS[1]] == SWAPS;
    assert SWAPPED_LOCAL[..1] == [l1] && [l1][..0] == [];
    assert PlanFiles([], byPath, ids, newIds, 0) == ([], [], 0);
    assert PlanFiles([l1], byPath, ids, newIds, 0) == ([], [SWAPS[0]], 0);
    assert PlanFiles(SWAPPED_LOCAL, byPath, ids, newIds, 0) == ([], SWAPS, 0);
    hide PlanFiles;
    assert l1 in SWAPPED_LOCAL && l2 in SWAPPED_LOCAL;
    assert "p" in FoldedPaths(SWAPPED_LOCAL) && "q" in FoldedPaths(SWAPPED_LOCAL);
    assert SWAPPED_REMOTE[..1] == [SWAPPED_REMOTE[0]] && [SWAPPED_REMOTE[0]][..0] == [];
    assert Removals([], FoldedPaths(SWAPPED_LOCAL)) == [];
    assert Removals([SWAPPED_REMOTE[0]], FoldedPaths(SWAPPED_LOCAL)) == [];
    assert Removals(SWAPPED_REMOTE, FoldedPaths(SWAPPED_LOCAL)) == [];
  }

  /** Two files that swapped paths: the second adoption gives up the id the first one took, so one
      path is lost from the index, and nothing is sent that would bring it back. */
  lemma SwappedIdsLoseAPath(newIds: Supply, files: seq<IndexEntry>)
    ensures PlanOf(SWAPPED_LOCAL, SWAPPED_REMOTE, newIds) == PushPlan([], SWAPS)
    ensures !InPlace(AdoptAll(files, SWAPS, ByFoldedPath(SWAPPED_REMOTE)), SWAPS[0])
  {
    SwappedPlan(newIds);
    SwappedIndex();
    hide CaseFold, ByFoldedPath, AdoptAll, InPlace, PlanOf;
    assert Adopts(SWAPPED_LOCAL[1], ByFoldedPath(SWAPPED_REMOTE)) && SWAPPED_LOCAL[1].fileId == Some("2");
    AdoptionSurvives(files, SWAPPED_LOCAL, SWAPPED_REMOTE, newIds, 0);
  }

  // ---- the runner ----

  datatype Blocked = Conflicts | PendingOutbox | RealtimeActive | Rejected
  datatype PushResult = Pushed(created: nat, updated: nat, deleted: nat, adopted: nat) | Refused(reason: Blocked)

  /** The client with the versions its index holds. */
  function WithIndex(c: Client, files: seq<IndexEntry>): Client {
    c.(applied := (f: string) => VersionIn(files, f))
  }

  function CountCreates(actions: seq<PushAction>): nat {
    if actions == [] then 0
    else CountCreates(actions[..|actions| - 1])
           + (if actions[|actions| - 1].Content? && actions[|actions| - 1].create then 1 else 0)
  }

  function CountUpdates(actions: seq<PushAction>): nat {
    if actions == [] then 0
    else CountUpdates(actions[..|actions| - 1])
           + (if actions[|actions| - 1].Content? && !actions[|actions| - 1].create then 1 else 0)
  }

  ghost function ContentAt(actions: seq<PushAction>, create: bool): set<nat> {
    set k: nat | k < |actions| && actions[k].Content? && actions[k].create == create
  }

  lemma OneMoreContent(actions: seq<PushAction>, create: bool)
    requires actions != []
    ensures var n := |actions| - 1;
      |ContentAt(actions, create)| == |ContentAt(actions[..n], create)|
          + (if actions[n].Content? && actions[n].create == create then 1 else 0)
  {
    var n := |actions| - 1;
    var before, after := ContentAt(actions[..n], create), ContentAt(actions, create);
    if actions[n].Content? && actions[n].create == create {
      assert after == before + {n};
    } else {
      assert after == before;
    }
  }

  /** The counts are the numbers of actions of each kind. */
  lemma {:induction false} CountsByKind(actions: seq<PushAction>)
    ensures CountCreates(actions) == |ContentAt(actions, true)|
    ensures CountUpdates(actions) == |ContentAt(actions, false)|
  {
    if actions != [] {
      CountsByKind(actions[..|actions| - 1]);
      OneMoreContent(actions, true);
      OneMoreContent(actions, false);
    }
    hide ContentAt;
  }

  /** Each planned adoption is of the path of a remote file. */
  lemma {:induction false} PlannedAtRemote(local: seq<LocalFile>, byPath: map<string, RemoteFile>)
    ensures forall a :: a in AdoptionsOf(local, byPath) ==> CaseFold(a.path) in byPath
  {
    hide CaseFold;
    if local != [] { PlannedAtRemote(local[..|local| - 1], byPath); }
  }

  lemma {:induction false} PlanAdoptsRemote(local: seq<LocalFile>, remote: seq<RemoteFile>, newIds: Supply)
    ensures forall i :: 0 <= i < |PlanOf(local, remote, newIds).adoptions| ==>
      CaseFold(PlanOf(local, remote, newIds).adoptions[i].path) in ByFoldedPath(remote)
  {
    PlannedAdoptions(local, remote, newIds);
    PlannedAtRemote(local, ByFoldedPath(remote));
    hide CaseFold, AdoptionsOf, PlanFiles, ByFoldedPath;
  }

  /** How a forced send ends for the client: with the server's answer, for lack of a connection, or by
      the timeout, in which case the operation may have arrived all the same. */
  datatype Link = Answered | Unconnected | TimedOut(arrived: bool)

  predicate Arrives(link: Link) {
    link.Answered? || (link.TimedOut? && link.arrived)
  }

  /** The entry an accepted forced operation leaves. */
  function EntryFrom(op: FileOp, path: string): IndexEntry {
    IndexEntry(op.fileId, path, op.fileType, op.contentHash, op.newContentVV.GetOr(map[]), false)
  }

  /** The index after an accepted forced operation. */
  function Applied(files: seq<IndexEntry>, op: FileOp): seq<IndexEntry> {
    var entry := ByFileId(files, op.fileId);
    if op.kind.Delete? then if entry.Some? then Upserted(files, entry.value.(deleted := true)) else files
    else
      var path := if op.newPath.Some? then op.newPath else if entry.Some? then Some(entry.value.path) else None;
      if !PresentText(path) || !Present(op.contentHash) then files
      else Upserted(files, EntryFrom(op, path.value))
  }

  /** After an accepted deletion the entry of the file is marked and otherwise as it was; after another operation
      it is what the operation says, at its new path or else where it was; other files keep their entries. */
  lemma AppliedSays(files: seq<IndexEntry>, op: FileOp, fileId: string)
    ensures var before, after := ByFileId(files, op.fileId), ByFileId(Applied(files, op), op.fileId);
      var path := if op.newPath.Some? then op.newPath.value else if before.Some? then before.value.path else "";
      && (fileId != op.fileId ==> ByFileId(Applied(files, op), fileId) == ByFileId(files, fileId))
      && (op.kind == Delete ==>
            after == if before.Some? then Some(before.value.(deleted := true)) else None)
      && (op.kind != Delete && path != "" && op.contentHash.Some? && op.contentHash != Some(Malformed("")) ==>
            after == Some(IndexEntry(op.fileId, path, op.fileType, op.contentHash, op.newContentVV.GetOr(map[]),
                                     false)))
      && (op.kind != Delete && !(path != "" && op.contentHash.Some? && op.contentHash != Some(Malformed(""))) ==>
            Applied(files, op) == files)
  {
    var entry := ByFileId(files, op.fileId);
    if op.kind.Delete? {
      if entry.Some? {
        UpsertedAt(files, entry.value.(deleted := true), fileId);
        UpsertedAt(files, entry.value.(deleted := true), op.fileId);
      }
    } else {
      var path := if op.newPath.Some? then op.newPath.value else if entry.Some? then entry.value.path else "";
      UpsertedAt(files, EntryFrom(op, path), fileId);
      UpsertedAt(files, EntryFrom(op, path), op.fileId);
    }
    hide ByFileId, Upserted;
  }

  /** The index after the operations of the actions. */
  function IndexAfter(files: seq<IndexEntry>, c: Client, actions: seq<PushAction>): seq<IndexEntry> {
    if actions == [] then files
    else
      var k := |actions| - 1;
      Applied(IndexAfter(files, c, actions[..k]), OpOf(c, k, actions[k]))
  }

  lemma AppliedElsewhere(files: seq<IndexEntry>, op: FileOp, fileId: string)
    requires fileId != op.fileId
    ensures ByFileId(Applied(files, op), fileId) == ByFileId(files, fileId)
  {
    var entry := ByFileId(files, op.fileId);
    if op.kind.Delete? {
      if entry.Some? { UpsertedAt(files, entry.value.(deleted := true), fileId); }
    } else {
      var path := if op.newPath.Some? then op.newPath else if entry.Some? then Some(entry.value.path) else None;
      if PresentText(path) {
        UpsertedAt(files, EntryFrom(op, path.value), fileId);
      }
    }
  }

  /** Ids that no action before the k-th has touched still have the version they had. */
  ghost predicate SameVersions(files0: seq<IndexEntry>, files: seq<IndexEntry>, actions: seq<PushAction>, k: nat) {
    forall f :: !TargetedBefore(actions, k, f) ==> VersionIn(files, f) == VersionIn(files0, f)
  }

  predicate AckedPlain(r: OpResult) {
    r.Ack? && r.conflictId.None?
  }

  /** The answer to the k-th operation of the plan, all earlier ones having been processed. */
  ghost function AnswerTo(s: State, c: Client, actions: seq<PushAction>, k: nat): OpResult
    requires k < |actions|
  {
    Vault.Process(Run(s, Events(c, actions[..k])), OpOf(c, k, actions[k]), true, c.times(k), c.conflictIds(k)).1
  }

  /** The k-th forced send succeeds. */
  ghost predicate Succeeds(s: State, c: Client, links: nat -> Link, actions: seq<PushAction>, k: nat)
    requires k < |actions|
  {
    links(k).Answered? && AckedPlain(AnswerTo(s, c, actions, k))
  }

  ghost predicate AllSucceed(s: State, c: Client, links: nat -> Link, actions: seq<PushAction>, n: nat)
    requires n <= |actions|
  {
    forall k :: 0 <= k < n ==> Succeeds(s, c, links, actions, k)
  }

  /** Server and index before or after a push. */
  datatype Both = Both(server: State, files: seq<IndexEntry>)

  /** What the whole push ends with: every send succeeded, or the first n did and the next did not,
      having reached the server or not. */
  ghost predicate Outcome(b: Both, b': Both, c: Client, links: nat -> Link, actions: seq<PushAction>, pushed: bool,
          n: nat) {
    && n <= |actions| && AllSucceed(b.server, c, links, actions, n) && (pushed <==> n == |actions|)
    && b'.files == IndexAfter(b.files, c, actions[..n])
    && if pushed then b'.server == Run(b.server, Events(c, actions))
       else
         && !Succeeds(b.server, c, links, actions, n)
         && b'.server == Run(b.server, Events(c, actions[..if Arrives(links(n)) then n + 1 else n]))
  }

  class ForceSyncRunner {
    const processor: OpProcessor
    const index: LocalIndexStore

    constructor (processor: OpProcessor, index: LocalIndexStore)
      ensures this.processor == processor && this.index == index
    {
      this.processor := processor;
      this.index := index;
    }

    method Adopt(adoptions: seq<Adoption>, remoteByPath: map<string, RemoteFile>) returns (adopted: nat)
      modifies index
      ensures index.files == AdoptAll(old(index.files), adoptions, remoteByPath)
      ensures adopted <= |adoptions|
      ensures adopted == |adoptions| <==>
        forall i :: 0 <= i < |adoptions| ==> CaseFold(adoptions[i].path) in remoteByPath
    {
      hide CaseFold;
      adopted := 0;
      for i := 0 to |adoptions|
        invariant adopted <= i
        invariant adopted == i <==> forall k :: 0 <= k < i ==> CaseFold(adoptions[k].path) in remoteByPath
        invariant index.files == AdoptAll(old(index.files), adoptions[..i], remoteByPath)
      {
        var adoption := adoptions[i];
        assert adoptions[..i + 1][..i] == adoptions[..i];
        if CaseFold(adoption.path) !in remoteByPath { continue; }
        var found := remoteByPath[CaseFold(adoption.path)];
        if PresentText(adoption.oldFileId) { index.RemoveFileId(adoption.oldFileId.value); }
        index.UpsertFile(IndexEntry(adoption.newFileId, adoption.path, found.fileType, found.contentHash,
                                    found.contentVV, false));
        adopted := adopted + 1;
      }
      assert adoptions[..|adoptions|] == adoptions;
    }

    /** Takes an accepted forced operation over into the index. */
    method ApplyForced(op: FileOp)
      modifies index
      ensures index.files == Applied(old(index.files), op)
    {
      if op.kind == Delete {
        index.MarkDeleted(op.fileId);
        return;
      }
      var entry := ByFileId(index.files, op.fileId);
      var path := if op.newPath.Some? then op.newPath else if entry.Some? then Some(entry.value.path) else None;
      if !PresentText(path) || !Present(op.contentHash) { return; }
      index.UpsertFile(EntryFrom(op, path.value));
    }

    /** One forced operation, sent and answered, or not. */
    method PushForced(op: FileOp, now: nat, freshId: string, link: Link) returns (ok: bool)
      requires processor.store.Valid()
      modifies processor.store, index
      ensures processor.store.Valid()
      ensures processor.store.Abs() ==
        if Arrives(link) then Step(old(processor.store.Abs()), Submit(op, true, now, freshId))
        else old(processor.store.Abs())
      ensures ok ==
        (link.Answered? && AckedPlain(Vault.Process(old(processor.store.Abs()), op, true, now, freshId).1))
      ensures index.files == if ok then Applied(old(index.files), op) else old(index.files)
    {
      hide Vault.Process, Applied;
      if !Arrives(link) { return false; }
      var result := processor.Process(op, true, now, freshId);
      ok := link.Answered? && result.Ack? && result.conflictId.None?;
      if ok { ApplyForced(op); }
    }

    /** The operations of the plan one after the other, until one does not succeed. */
    method PushAll(actions: seq<PushAction>, c: Client, links: nat -> Link)
      returns (ok: bool, created: nat, updated: nat, deleted: nat)
      requires processor.store.Valid()
      modifies processor.store, index
      ensures processor.store.Valid()
      ensures DistinctTargets(actions) ==> exists n: nat ::
        Outcome(Both(old(processor.store.Abs()), old(index.files)), Both(processor.store.Abs(), index.files),
                WithIndex(c, old(index.files)), links, actions, ok, n)
      ensures ok ==>
        created == CountCreates(actions) && updated == CountUpdates(actions) && created + updated + deleted == |actions|
    {
      hide Run, Step, OpOf, WithIndex, Events, AnswerTo, AckedPlain, SameVersions, DistinctTargets, Vault.Process,
           Applied, IndexAfter, Outcome, AllSucceed, Arrives;
      ghost var c', b0 := WithIndex(c, index.files), Both(processor.store.Abs(), index.files);
      created, updated, deleted := 0, 0, 0;
      NothingYet(b0, c', links, actions);
      for k := 0 to |actions|
        invariant processor.store.Valid()
        invariant DistinctTargets(actions) ==>
          SoFar(b0, Both(processor.store.Abs(), index.files), c', links, actions, k)
        invariant created == CountCreates(actions[..k]) && updated == CountUpdates(actions[..k])
        invariant created + updated + deleted == k
      {
        var action := actions[k];
        assert actions[..k + 1][..k] == actions[..k];
        ghost var b := Both(processor.store.Abs(), index.files);
        var op := OpOf(WithIndex(c, index.files), k, action);
        ok := PushForced(op, c.times(k), c.conflictIds(k), links(k));
        ghost var b' := Both(processor.store.Abs(), index.files);
        if DistinctTargets(actions) { OneMoreSend(c, c', b0, b, b', links, actions, k, op, ok); }
        if !ok {
          assert DistinctTargets(actions) ==> Outcome(b0, b', c', links, actions, false, k);
          return;
        }
        if action.Content? {
          if action.create { created := created + 1; } else { updated := updated + 1; }
        } else {
          deleted := deleted + 1;
        }
      }
      assert actions[..|actions|] == actions;
      ok := true;
      if DistinctTargets(actions) { AllSent(b0, Both(processor.store.Abs(), index.files), c', links, actions); }
    }

    /** The guards, the adoptions and the plan. */
    method ForcePush(local: seq<LocalFile>, remote: seq<RemoteFile>, newIds: Supply, c: Client, links: nat -> Link,
                     hasConflicts: bool, pending: nat, realtime: set<string>)
      returns (r: PushResult)
      requires processor.store.Valid()
      modifies processor.store, index
      ensures processor.store.Valid()
      ensures r.Refused? && r.reason != Rejected <==>
        hasConflicts || pending > 0 || exists l :: l in local && PresentText(l.fileId) && l.fileId.value in realtime
      ensures r.Refused? && r.reason != Rejected ==>
        processor.store.Abs() == old(processor.store.Abs()) && index.files == old(index.files)
      ensures var plan := PlanOf(local, remote, newIds);
        var adopted := AdoptAll(old(index.files), plan.adoptions, ByFoldedPath(remote));
        && (DistinctTargets(plan.actions) && (r.Pushed? || r.reason.Rejected?) ==>
              exists n: nat ::
                Outcome(Both(old(processor.store.Abs()), adopted), Both(processor.store.Abs(), index.files),
                        WithIndex(c, adopted), links, plan.actions, r.Pushed?, n))
        && (r.Pushed? ==>
              && r.created == CountCreates(plan.actions) && r.updated == CountUpdates(plan.actions)
              && r.created + r.updated + r.deleted == |plan.actions| && r.adopted == |plan.adoptions|)
    {
      hide PlanOf, AdoptAll, ByFoldedPath, Run, Step, OpOf, WithIndex, CaseFold, Outcome, DistinctTargets;
      if hasConflicts { return Refused(Conflicts); }
      if pending > 0 { return Refused(PendingOutbox); }
      if exists l :: l in local && PresentText(l.fileId) && l.fileId.value in realtime {
        return Refused(RealtimeActive);
      }
      ghost var s0 := processor.store.Abs();
      var plan := PlanForcePush(local, remote, newIds);
      PlanAdoptsRemote(local, remote, newIds);
      var remoteByPath, _ := IndexRemote(remote);
      var adopted := Adopt(plan.adoptions, remoteByPath);
      ghost var b0 := Both(s0, index.files);
      assert b0.files == AdoptAll(old(index.files), plan.adoptions, ByFoldedPath(remote));
      var ok, created, updated, deleted := PushAll(plan.actions, c, links);
      r := if ok then Pushed(created, updated, deleted, adopted) else Refused(Rejected);
      if DistinctTargets(plan.actions) {
        ghost var b' := Both(processor.store.Abs(), index.files);
        ghost var n: nat :| Outcome(b0, b', WithIndex(c, b0.files), links, plan.actions, ok, n);
        assert Outcome(b0, b', WithIndex(c, b0.files), links, plan.actions, r.Pushed?, n);
      }
    }
  }

  /** The first k sends succeeded. */
  ghost predicate SoFar(b0: Both, b: Both, c: Client, links: nat -> Link, actions: seq<PushAction>, k: nat) {
    && k <= |actions| && AllSucceed(b0.server, c, links, actions, k)
    && b == Both(Run(b0.server, Events(c, actions[..k])), IndexAfter(b0.files, c, actions[..k]))
    && SameVersions(b0.files, b.files, actions, k)
  }

  lemma NothingYet(b: Both, c: Client, links: nat -> Link, actions: seq<PushAction>)
    ensures SoFar(b, b, c, links, actions, 0)
    ensures CountCreates(actions[..0]) == 0 && CountUpdates(actions[..0]) == 0
  {
    hide Step;
    assert Events(c, actions[..0]) == [];
  }

  lemma AllSent(b0: Both, b: Both, c: Client, links: nat -> Link, actions: seq<PushAction>)
    requires SoFar(b0, b, c, links, actions, |actions|)
    ensures Outcome(b0, b, c, links, actions, true, |actions|)
  {
    hide Run, Events, IndexAfter, AllSucceed;
    assert actions[..|actions|] == actions;
  }

  /** One more send: the operation is the plan's, and either all goes on or this is where it ends. */
  lemma {:induction false} OneMoreSend(c: Client, c': Client, b0: Both, b: Both, b': Both, links: nat -> Link,
          actions: seq<PushAction>, k: nat, op: FileOp, ok: bool)
    requires k < |actions| && DistinctTargets(actions) && c' == WithIndex(c, b0.files)
    requires SoFar(b0, b, c', links, actions, k) && op == OpOf(WithIndex(c, b.files), k, actions[k])
    requires b'.server ==
      if Arrives(links(k)) then Step(b.server, Submit(op, true, c.times(k), c.conflictIds(k))) else b.server
    requires ok == (links(k).Answered? && AckedPlain(Vault.Process(b.server, op, true, c.times(k), c.conflictIds(k)).1))
    requires b'.files == if ok then Applied(b.files, op) else b.files
    ensures ok ==> SoFar(b0, b', c', links, actions, k + 1)
    ensures !ok ==> Outcome(b0, b', c', links, actions, false, k)
  {
    SameOp(c, b0.files, b.files, actions, k);
    RunOneMore(b0.server, b.server, c, c', actions, k, b0.files, op);
    VersionsGoOn(b0.files, b.files, b'.files, actions, k, op);
    hide Run, Events, OpOf, Step, Vault.Process, AnswerTo, AckedPlain, SameVersions, Applied, WithIndex,
         DistinctTargets, IndexAfter, Arrives, AllSucceed;
    IndexOneMore(b0.files, c', actions, k);
    SucceedOneMore(b0.server, c', links, actions, k);
  }

  lemma IndexOneMore(files: seq<IndexEntry>, c: Client, actions: seq<PushAction>, k: nat)
    requires k < |actions|
    ensures IndexAfter(files, c, actions[..k + 1]) ==
      Applied(IndexAfter(files, c, actions[..k]), OpOf(c, k, actions[k]))
  {
    assert actions[..k + 1][..k] == actions[..k];
    hide Applied, OpOf;
  }

  lemma SucceedOneMore(s: State, c: Client, links: nat -> Link, actions: seq<PushAction>, k: nat)
    requires k < |actions| && AllSucceed(s, c, links, actions, k)
    ensures AllSucceed(s, c, links, actions, k + 1) <==> Succeeds(s, c, links, actions, k)
  {
    hide Succeeds;
  }

  /** The target of the k-th action still has the version it had at the start. */
  lemma SameOp(c: Client, files0: seq<IndexEntry>, files: seq<IndexEntry>, actions: seq<PushAction>, k: nat)
    requires k < |actions|
    ensures DistinctTargets(actions) && SameVersions(files0, files, actions, k) ==>
      OpOf(WithIndex(c, files), k, actions[k]) == OpOf(WithIndex(c, files0), k, actions[k])
    ensures OpOf(WithIndex(c, files), k, actions[k]).fileId == actions[k].fileId
  {
    if DistinctTargets(actions) && SameVersions(files0, files, actions, k) {
      assert !TargetedBefore(actions, k, actions[k].fileId);
    }
    hide ForcedVV, VersionIn;
  }

  lemma {:induction false} RunOneMore(s0: State, s: State, c: Client, c': Client, actions: seq<PushAction>, k: nat,
          files0: seq<IndexEntry>, op: FileOp)
    requires k < |actions| && c' == WithIndex(c, files0)
    ensures op == OpOf(c', k, actions[k]) && s == Run(s0, Events(c', actions[..k])) ==>
      && Step(s, Submit(op, true, c.times(k), c.conflictIds(k))) == Run(s0, Events(c', actions[..k + 1]))
      && AnswerTo(s0, c', actions, k) == Vault.Process(s, op, true, c.times(k), c.conflictIds(k)).1
  {
    EventsUnfold(s0, c', actions, k);
    hide Run, Events, OpOf, Step, Vault.Process;
  }

  lemma VersionsGoOn(files0: seq<IndexEntry>, files: seq<IndexEntry>, files': seq<IndexEntry>, actions: seq<PushAction>,
          k: nat, op: FileOp)
    requires k < |actions| && op.fileId == actions[k].fileId && (files' == files || files' == Applied(files, op))
    requires SameVersions(files0, files, actions, k)
    ensures SameVersions(files0, files', actions, k + 1)
  {
    hide Applied;
    forall f | !TargetedBefore(actions, k + 1, f) ensures VersionIn(files', f) == VersionIn(files0, f) {
      assert actions[k].fileId != f;
      assert !TargetedBefore(actions, k, f);
      AppliedElsewhere(files, op, f);
    }
  }

  /** The runner's whole outcome under the conditions of a force push, when every send is answered:
      everything succeeds, and the live vault equals the local one. */
  lemma {:induction false} PushedVaultMirrorsLocal(b: Both, b': Both, c: Client, links: nat -> Link,
          local: seq<LocalFile>, remote: seq<RemoteFile>, newIds: Supply, start: nat, pushed: bool, n: nat)
    requires ReadyServer(b.server, c, start) && Listing(remote, b.server.files.at)
    requires GoodLocal(local, c, b.server.blobs.at) && FreshIds(newIds, local, b.server.files.at.Keys)
    requires GoodClient(c, start) && c.firstSeq + |PlanOf(local, remote, newIds).actions| <= MAX_SAFE_INTEGER
    requires forall k: nat :: k < |PlanOf(local, remote, newIds).actions| ==> links(k).Answered?
    requires Outcome(b, b', c, links, PlanOf(local, remote, newIds).actions, pushed, n)
    ensures pushed && LiveContents(b'.server.files.at) == LocalContents(local)
  {
    hide ReadyServer, Listing, GoodLocal, FreshIds, GoodClient, PlanOf, Run, Events, LiveContents, LocalContents,
         AnswerTo, AckedPlain, IndexAfter;
    ForcePushMirrorsLocal(b.server, c, local, remote, newIds, start);
    var actions := PlanOf(local, remote, newIds).actions;
    AcceptedIsAcked(b.server, c, actions, start);
  }

  lemma {:induction false} AcceptedIsAcked(s: State, c: Client, actions: seq<PushAction>, start: nat)
    requires AllAccepted(s, c, actions, start)
    ensures forall k :: 0 <= k < |actions| ==> AckedPlain(AnswerTo(s, c, actions, k))
  {
    hide Run, Events, OpOf, Prepare, Vault.Process, Commits;
    if actions != [] {
      var k, a := |actions| - 1, actions[|actions| - 1];
      AcceptedIsAcked(s, c, actions[..k], start);
      ProcessCases(Run(s, Events(c, actions[..k])), OpOf(c, k, a), true, c.times(k), c.conflictIds(k));
      forall i | 0 <= i < k ensures AckedPlain(AnswerTo(s, c, actions, i)) {
        assert AnswerTo(s, c, actions[..k], i) == AnswerTo(s, c, actions, i) by {
          assert actions[..k][..i] == actions[..i];
        }
      }
    }
  }

  // ---- adoptions at the end of the push ----

  /** Operations on the adopted file that put its path back are all that bears on its entry. */
  lemma {:induction false} IndexAfterAt(files: seq<IndexEntry>, c: Client, actions: seq<PushAction>, a: Adoption)
    requires a.path != "" && c.payloads(a.path).hash.Digest?
    requires forall x :: x in actions && x.fileId == a.newFileId ==> x.Content? && x.path == a.path
    ensures InPlace(IndexAfter(files, c, actions), a) <==>
      InPlace(files, a) || exists x :: x in actions && x.fileId == a.newFileId
  {
    if actions != [] {
      var k := |actions| - 1;
      var before, op := IndexAfter(files, c, actions[..k]), OpOf(c, k, actions[k]);
      assert actions == actions[..k] + [actions[k]];
      IndexAfterAt(files, c, actions[..k], a);
      hide IndexAfter;
      if actions[k].fileId == a.newFileId {
        UpsertedAt(before, EntryFrom(op, a.path), a.newFileId);
        assert actions[k] in actions;
      } else {
        AppliedElsewhere(before, op, a.newFileId);
      }
    }
  }

  /** The plan targets an adopted file exactly if its content differs, and then with an update. */
  lemma AdoptedTarget(local: seq<LocalFile>, remote: seq<RemoteFile>, newIds: Supply, l: LocalFile)
    requires DistinctRemote(remote) && FreshIds(newIds, local, FileIds(remote)) && DistinctLocal(local)
    requires DistinctLocalIds(local) && l in local && CaseFold(l.path) in ByFoldedPath(remote)
    ensures var found, actions := ByFoldedPath(remote)[CaseFold(l.path)], PlanOf(local, remote, newIds).actions;
      && (forall x :: x in actions && x.fileId == found.fileId ==> x.Content? && x.path == l.path)
      && ((exists x :: x in actions && x.fileId == found.fileId) <==> found.contentHash != Some(l.hash))
  {
    PlanIsGood(local, remote, newIds);
    ByFoldedPathAt(remote);
    var found, actions := ByFoldedPath(remote)[CaseFold(l.path)], PlanOf(local, remote, newIds).actions;
    hide CaseFold, ByFoldedPath, PlanOf, FreshIds, DistinctLocalIds;
    forall x | x in actions && x.fileId == found.fileId
      ensures x.Content? && x.path == l.path && found.contentHash != Some(l.hash)
    {
      OnlyUpdated(x, local, remote, l, found);
    }
    if found.contentHash != Some(l.hash) {
      assert Handled(l, actions, remote);
      var x :| x in actions && x.Content? && x.path == l.path;
      UpdatedAt(x, local, remote, found);
    }
  }

  lemma SameRemote(remote: seq<RemoteFile>, e: RemoteFile, e': RemoteFile)
    requires DistinctRemote(remote) && e in remote && e' in remote
    requires e.fileId == e'.fileId || CaseFold(e.path) == CaseFold(e'.path)
    ensures e == e'
  {
    hide CaseFold;
  }

  lemma SameLocal(local: seq<LocalFile>, l: LocalFile, l': LocalFile)
    requires DistinctLocal(local) && l in local && l' in local && CaseFold(l.path) == CaseFold(l'.path)
    ensures l == l'
  {
    hide CaseFold;
  }

  lemma StrayIsNotLocal(x: PushAction, local: seq<LocalFile>, remote: seq<RemoteFile>, l: LocalFile, found: RemoteFile)
    requires RemovesStray(x, local, remote) && DistinctRemote(remote) && l in local && found in remote
    requires CaseFold(found.path) == CaseFold(l.path)
    ensures x.fileId != found.fileId
  {
    hide CaseFold;
  }

  lemma OnlyUpdated(x: PushAction, local: seq<LocalFile>, remote: seq<RemoteFile>, l: LocalFile, found: RemoteFile)
    requires UpdatesSome(x, local, remote) || CreatesSome(x, local, remote) || RemovesStray(x, local, remote)
    requires DistinctRemote(remote) && DistinctLocal(local) && l in local && found in remote
    requires CaseFold(found.path) == CaseFold(l.path) && x.fileId == found.fileId
    ensures x.Content? && x.path == l.path && found.contentHash != Some(l.hash)
  {
    hide CaseFold, DistinctRemote, DistinctLocal, RemovesStray;
    if UpdatesSome(x, local, remote) {
      var l', e :| l' in local && e in remote && UpdatesMatch(x, l', e);
      SameRemote(remote, e, found);
      SameLocal(local, l, l');
    } else if RemovesStray(x, local, remote) {
      StrayIsNotLocal(x, local, remote, l, found);
    }
  }

  lemma UpdatedAt(x: PushAction, local: seq<LocalFile>, remote: seq<RemoteFile>, found: RemoteFile)
    requires UpdatesSome(x, local, remote) || CreatesSome(x, local, remote) || RemovesStray(x, local, remote)
    requires DistinctRemote(remote) && found in remote && x.Content? && CaseFold(found.path) == CaseFold(x.path)
    ensures x.fileId == found.fileId
  {
    hide CaseFold, DistinctRemote;
    if UpdatesSome(x, local, remote) {
      var l', e :| l' in local && e in remote && UpdatesMatch(x, l', e);
      SameRemote(remote, e, found);
    }
  }

  /** After the first n operations of a force push, in particular at its end, the index leads from an
      adopted id to its path exactly if no adopted local file further on had that id, or one of them
      targeted it; the plan targets it exactly if the contents differ. */
  lemma {:induction false} AdoptionReachesTheEnd(files: seq<IndexEntry>, local: seq<LocalFile>, remote: seq<RemoteFile>,
          newIds: Supply, c: Client, i: nat, n: nat)
    requires DistinctRemote(remote) && FreshIds(newIds, local, FileIds(remote)) && DistinctLocal(local)
    requires DistinctLocalIds(local) && forall e :: e in remote ==> e.fileId != ""
    requires i < |local| && Adopts(local[i], ByFoldedPath(remote)) && n <= |PlanOf(local, remote, newIds).actions|
    requires local[i].path != "" && c.payloads(local[i].path).hash.Digest?
    ensures var plan, byPath := PlanOf(local, remote, newIds), ByFoldedPath(remote);
      var found, adopted := byPath[CaseFold(local[i].path)], AdoptAll(files, plan.adoptions, byPath);
      && (InPlace(IndexAfter(adopted, WithIndex(c, adopted), plan.actions[..n]), AdoptionFor(local[i], byPath)) <==>
            || (forall k :: i < k < |local| && Adopts(local[k], byPath) ==> local[k].fileId != Some(found.fileId))
            || exists x :: x in plan.actions[..n] && x.fileId == found.fileId)
      && ((exists x :: x in plan.actions && x.fileId == found.fileId) <==> found.contentHash != Some(local[i].hash))
  {
    AdoptionSurvives(files, local, remote, newIds, i);
    AdoptedTarget(local, remote, newIds, local[i]);
    var plan, byPath := PlanOf(local, remote, newIds), ByFoldedPath(remote);
    var adopted := AdoptAll(files, plan.adoptions, byPath);
    hide CaseFold, ByFoldedPath, PlanOf, AdoptAll, InPlace, IndexAfter, FreshIds, DistinctLocal, DistinctLocalIds,
         DistinctRemote, VersionIn;
    IndexAfterAt(adopted, WithIndex(c, adopted), plan.actions[..n], AdoptionFor(local[i], byPath));
  }
}
