/** Planning a force push or a force pull (apps/plugin/src/sync/force-sync.ts). */
module ForceSync {
  import opened Options
  import opened VersionVectors
  import opened Paths
  import opened Vault

  datatype LocalFile = LocalFile(path: string, hash: Hash, fileType: FileType, fileId: Option<string>)
  datatype RemoteFile = RemoteFile(fileId: string, path: string, contentHash: Option<Hash>, contentVV: VersionVector,
          fileType: FileType)

  datatype PushAction =
    | Content(create: bool, fileId: string, path: string, fileType: FileType, dominateVV: VersionVector)
    | Remove(fileId: string, path: string, fileType: FileType)
  datatype Adoption = Adoption(path: string, oldFileId: Option<string>, newFileId: string)
  datatype PushPlan = PushPlan(actions: seq<PushAction>, adoptions: seq<Adoption>)

  /** Drawn ids, in the order in which they are drawn. */
  type Supply = nat -> string

  // ---- the plan as a value ----

  /** A later entry replaces an earlier one of the same folded path. */
  function ByFoldedPath(remote: seq<RemoteFile>): map<string, RemoteFile> {
    if remote == [] then map[]
    else ByFoldedPath(remote[..|remote| - 1])[CaseFold(remote[|remote| - 1].path) := remote[|remote| - 1]]
  }

  function FileIds(remote: seq<RemoteFile>): set<string> { set e | e in remote :: e.fileId }
  function FoldedPaths(local: seq<LocalFile>): set<string> { set f | f in local :: CaseFold(f.path) }

  /** What one local file contributes: its actions, its adoptions and the ids drawn for it. */
  function PlanFile(file: LocalFile, byPath: map<string, RemoteFile>, remoteIds: set<string>,
          newId: string): (seq<PushAction>, seq<Adoption>, nat) {
    if CaseFold(file.path) in byPath then
      var found := byPath[CaseFold(file.path)];
      (if found.contentHash == Some(file.hash) then []
          else [Content(false, found.fileId, file.path, file.fileType, found.contentVV)],
       if file.fileId != Some(found.fileId) then [Adoption(file.path, file.fileId, found.fileId)] else [],
       0)
    else if PresentText(file.fileId) && file.fileId.value !in remoteIds then
      ([Content(true, file.fileId.value, file.path, file.fileType, map[])], [], 0)
    else
      ([Content(true, newId, file.path, file.fileType, map[])], [], 1)
  }

  function PlanFiles(local: seq<LocalFile>, byPath: map<string, RemoteFile>, remoteIds: set<string>, newIds: Supply,
          drawn: nat): (seq<PushAction>, seq<Adoption>, nat) {
    if local == [] then ([], [], drawn)
    else
      var (actions, adoptions, d) := PlanFiles(local[..|local| - 1], byPath, remoteIds, newIds, drawn);
      var (a, b, n) := PlanFile(local[|local| - 1], byPath, remoteIds, newIds(d));
      (actions + a, adoptions + b, d + n)
  }

  function Removals(remote: seq<RemoteFile>, localPaths: set<string>): seq<PushAction> {
    if remote == [] then []
    else
      var e := remote[|remote| - 1];
      Removals(remote[..|remote| - 1], localPaths)
          + (if CaseFold(e.path) !in localPaths then [Remove(e.fileId, e.path, e.fileType)] else [])
  }

  function PlanOf(local: seq<LocalFile>, remote: seq<RemoteFile>, newIds: Supply): PushPlan {
    var (actions, adoptions, _) := PlanFiles(local, ByFoldedPath(remote), FileIds(remote), newIds, 0);
    PushPlan(actions + Removals(remote, FoldedPaths(local)), adoptions)
  }

  // ---- the planner ----

  method IndexRemote(remote: seq<RemoteFile>)
          returns (remoteByPath: map<string, RemoteFile>, remoteFileIds: set<string>)
    ensures remoteByPath == ByFoldedPath(remote) && remoteFileIds == FileIds(remote)
  {
    hide CaseFold;
    remoteByPath, remoteFileIds := map[], {};
    for i := 0 to |remote|
      invariant remoteByPath == ByFoldedPath(remote[..i]) && remoteFileIds == FileIds(remote[..i])
    {
      assert remote[..i + 1] == remote[..i] + [remote[i]];
      remoteByPath := remoteByPath[CaseFold(remote[i].path) := remote[i]];
      remoteFileIds := remoteFileIds + {remote[i].fileId};
    }
    assert remote[..|remote|] == remote;
  }

  method PlanContents(local: seq<LocalFile>, remoteByPath: map<string, RemoteFile>, remoteFileIds: set<string>,
          newIds: Supply)
    returns (actions: seq<PushAction>, adoptions: seq<Adoption>)
    ensures (actions, adoptions) == (PlanFiles(local, remoteByPath, remoteFileIds, newIds, 0).0,
                                     PlanFiles(local, remoteByPath, remoteFileIds, newIds, 0).1)
  {
    hide CaseFold;
    actions, adoptions := [], [];
    var drawn := 0;
    for i := 0 to |local|
      invariant (actions, adoptions, drawn) == PlanFiles(local[..i], remoteByPath, remoteFileIds, newIds, 0)
    {
      assert local[..i + 1][..i] == local[..i];
      assert actions + [] == actions && adoptions + [] == adoptions;
      var file := local[i];
      if CaseFold(file.path) in remoteByPath {
        var found := remoteByPath[CaseFold(file.path)];
        if file.fileId != Some(found.fileId) {
          adoptions := adoptions + [Adoption(file.path, file.fileId, found.fileId)];
        }
        if found.contentHash == Some(file.hash) { continue; }
        actions := actions + [Content(false, found.fileId, file.path, file.fileType, found.contentVV)];
        continue;
      }
      var known := PresentText(file.fileId) && file.fileId.value !in remoteFileIds;
      var fileId := if known then file.fileId.value else newIds(drawn);
      if !known { drawn := drawn + 1; }
      actions := actions + [Content(true, fileId, file.path, file.fileType, map[])];
    }
    assert local[..|local|] == local;
  }

  method PlanForcePush(local: seq<LocalFile>, remote: seq<RemoteFile>, newIds: Supply) returns (plan: PushPlan)
    ensures plan == PlanOf(local, remote, newIds)
  {
    hide CaseFold, PlanFiles;
    var remoteByPath, remoteFileIds := IndexRemote(remote);
    var localPaths := FoldedPaths(local);
    var contents, adoptions := PlanContents(local, remoteByPath, remoteFileIds, newIds);
    var actions := contents;
    for i := 0 to |remote|
      invariant actions == contents + Removals(remote[..i], localPaths)
    {
      assert remote[..i + 1][..i] == remote[..i];
      if CaseFold(remote[i].path) !in localPaths {
        actions := actions + [Remove(remote[i].fileId, remote[i].path, remote[i].fileType)];
      }
    }
    assert remote[..|remote|] == remote;
    return PushPlan(actions, adoptions);
  }

  // ---- what the plan is made of ----

  ghost predicate DistinctLocal(local: seq<LocalFile>) {
    forall i, k :: 0 <= i < k < |local| ==> CaseFold(local[i].path) != CaseFold(local[k].path)
  }

  ghost predicate DistinctLocalIds(local: seq<LocalFile>) {
    forall i, k :: 0 <= i < k < |local| && PresentText(local[i].fileId) ==> local[i].fileId != local[k].fileId
  }

  ghost predicate DistinctRemote(remote: seq<RemoteFile>) {
    forall i, k :: 0 <= i < k < |remote| ==>
      CaseFold(remote[i].path) != CaseFold(remote[k].path) && remote[i].fileId != remote[k].fileId
  }

  /** Drawn ids are new to both sides and to each other. */
  ghost predicate FreshIds(newIds: Supply, local: seq<LocalFile>, taken: set<string>) {
    && (forall i: nat :: newIds(i) !in taken && newIds(i) != "")
    && (forall i: nat, f :: f in local ==> f.fileId != Some(newIds(i)))
    && (forall i: nat, k: nat :: i < k ==> newIds(i) != newIds(k))
  }

  lemma {:induction false} ByFoldedPathAt(remote: seq<RemoteFile>)
    requires DistinctRemote(remote)
    ensures var m := ByFoldedPath(remote);
      && (forall e :: e in remote ==> CaseFold(e.path) in m && m[CaseFold(e.path)] == e)
      && (forall p :: p in m ==> m[p] in remote && CaseFold(m[p].path) == p)
  {
    hide CaseFold;
    if remote != [] {
      var before, last := remote[..|remote| - 1], remote[|remote| - 1];
      assert remote == before + [last];
      ByFoldedPathAt(before);
    }
  }

  /** The action overwrites the remote file at the local path, which holds something else. */
  ghost predicate UpdatesMatch(a: PushAction, l: LocalFile, e: RemoteFile) {
    && a == Content(false, e.fileId, l.path, l.fileType, e.contentVV)
    && CaseFold(e.path) == CaseFold(l.path) && e.contentHash != Some(l.hash)
  }

  /** The action creates the local file, at a path no remote file has, under an id no remote file has. */
  ghost predicate CreatesMissing(a: PushAction, l: LocalFile, remote: seq<RemoteFile>) {
    && a == Content(true, a.fileId, l.path, l.fileType, map[]) && a.fileId != ""
    && (forall e :: e in remote ==> CaseFold(e.path) != CaseFold(l.path) && e.fileId != a.fileId)
  }

  ghost predicate UpdatesSome(a: PushAction, local: seq<LocalFile>, remote: seq<RemoteFile>) {
    exists l, e :: l in local && e in remote && UpdatesMatch(a, l, e)
  }

  ghost predicate CreatesSome(a: PushAction, local: seq<LocalFile>, remote: seq<RemoteFile>) {
    exists l :: l in local && CreatesMissing(a, l, remote)
  }

  ghost predicate RemovesStray(a: PushAction, local: seq<LocalFile>, remote: seq<RemoteFile>) {
    exists e :: e in remote && a == Remove(e.fileId, e.path, e.fileType) && CaseFold(e.path) !in FoldedPaths(local)
  }

  /** Where a content action's id comes from. */
  ghost predicate IdSource(a: PushAction, local: seq<LocalFile>, remote: seq<RemoteFile>, newIds: Supply, drawn: nat) {
    a.Content? &&
    if a.create then
      || (exists l :: l in local && l.path == a.path && PresentText(l.fileId) && l.fileId == Some(a.fileId))
      || (exists i: nat :: i < drawn && a.fileId == newIds(i))
    else exists e :: e in remote && a.fileId == e.fileId && CaseFold(e.path) == CaseFold(a.path)
  }

  /** Every local file is already right on the server or has an action. */
  ghost predicate Handled(l: LocalFile, actions: seq<PushAction>, remote: seq<RemoteFile>) {
    || (exists e :: e in remote && CaseFold(e.path) == CaseFold(l.path) && e.contentHash == Some(l.hash))
    || (exists a :: a in actions && a.Content? && a.path == l.path)
  }

  ghost predicate DistinctTargets(actions: seq<PushAction>) {
    forall i, k :: 0 <= i < k < |actions| ==> actions[i].fileId != actions[k].fileId
  }

  ghost predicate SoundContents(actions: seq<PushAction>, local: seq<LocalFile>, remote: seq<RemoteFile>,
          newIds: Supply, drawn: nat) {
    forall a :: a in actions ==>
      (UpdatesSome(a, local, remote) || CreatesSome(a, local, remote)) && IdSource(a, local, remote, newIds, drawn)
  }

  lemma SoundMore(actions: seq<PushAction>, local: seq<LocalFile>, l: LocalFile, remote: seq<RemoteFile>,
          newIds: Supply, drawn: nat, drawn': nat)
    requires SoundContents(actions, local, remote, newIds, drawn) && drawn <= drawn'
    ensures SoundContents(actions, local + [l], remote, newIds, drawn')
  {
    hide CaseFold;
    forall a | a in actions
      ensures UpdatesSome(a, local + [l], remote) || CreatesSome(a, local + [l], remote)
      ensures IdSource(a, local + [l], remote, newIds, drawn')
    {
      if UpdatesSome(a, local, remote) {
        var x, e :| x in local && e in remote && UpdatesMatch(a, x, e);
        assert x in local + [l];
      } else {
        var x :| x in local && CreatesMissing(a, x, remote);
        assert x in local + [l];
      }
    }
  }

  /** A local file whose path some remote file has. */
  lemma MatchedFile(l: LocalFile, local: seq<LocalFile>, remote: seq<RemoteFile>, newIds: Supply, drawn: nat)
    requires DistinctRemote(remote) && l in local && CaseFold(l.path) in ByFoldedPath(remote)
    ensures var (a, _, n) := PlanFile(l, ByFoldedPath(remote), FileIds(remote), newIds(drawn));
      && |a| <= 1 && n == 0 && (|a| == 1 ==> UpdatesSome(a[0], local, remote) && a[0].path == l.path)
      && Handled(l, a, remote) && (|a| == 1 ==> IdSource(a[0], local, remote, newIds, drawn))
  {
    ByFoldedPathAt(remote);
    hide CaseFold, ByFoldedPath, DistinctRemote, FileIds;
    var found := ByFoldedPath(remote)[CaseFold(l.path)];
    if found.contentHash != Some(l.hash) {
      assert UpdatesMatch(Content(false, found.fileId, l.path, l.fileType, found.contentVV), l, found);
    }
  }

  /** A local file at a path no remote file has. */
  lemma MissingFile(l: LocalFile, local: seq<LocalFile>, remote: seq<RemoteFile>, newIds: Supply, drawn: nat)
    requires DistinctRemote(remote) && l in local && FreshIds(newIds, local, FileIds(remote))
    requires CaseFold(l.path) !in ByFoldedPath(remote)
    ensures var (a, _, n) := PlanFile(l, ByFoldedPath(remote), FileIds(remote), newIds(drawn));
      && |a| == 1 && CreatesSome(a[0], local, remote) && a[0].path == l.path && Handled(l, a, remote)
      && IdSource(a[0], local, remote, newIds, drawn + n)
  {
    ByFoldedPathAt(remote);
    hide CaseFold, ByFoldedPath, DistinctRemote;
    var (a, _, n) := PlanFile(l, ByFoldedPath(remote), FileIds(remote), newIds(drawn));
    assert a[0].fileId !in FileIds(remote);
    assert CreatesMissing(a[0], l, remote);
  }

  lemma OneFile(l: LocalFile, local: seq<LocalFile>, remote: seq<RemoteFile>, newIds: Supply, drawn: nat)
    requires DistinctRemote(remote) && l in local && FreshIds(newIds, local, FileIds(remote))
    ensures var (a, _, n) := PlanFile(l, ByFoldedPath(remote), FileIds(remote), newIds(drawn));
      && |a| <= 1 && SoundContents(a, local, remote, newIds, drawn + n) && Handled(l, a, remote)
      && (|a| == 1 ==> a[0].path == l.path)
  {
    hide CaseFold, ByFoldedPath, DistinctRemote, FreshIds, IdSource, PlanFile, UpdatesSome, CreatesSome, Handled;
    if CaseFold(l.path) in ByFoldedPath(remote) {
      MatchedFile(l, local, remote, newIds, drawn);
    } else {
      MissingFile(l, local, remote, newIds, drawn);
    }
  }

  ghost predicate DistinctPaths(actions: seq<PushAction>) {
    forall i, k :: 0 <= i < k < |actions| ==> CaseFold(actions[i].path) != CaseFold(actions[k].path)
  }

  lemma DifferentTargets(l: LocalFile, b: PushAction, before: seq<LocalFile>, local: seq<LocalFile>,
          remote: seq<RemoteFile>, newIds: Supply, drawn: nat)
    requires DistinctRemote(remote) && FreshIds(newIds, local, FileIds(remote)) && local == before + [l]
    requires DistinctLocal(local) && DistinctLocalIds(local)
    requires IdSource(b, before, remote, newIds, drawn) && (b.create ==> b.fileId !in FileIds(remote))
    requires exists x :: x in before && x.path == b.path
    ensures var (a, _, _) := PlanFile(l, ByFoldedPath(remote), FileIds(remote), newIds(drawn));
      a != [] ==> a[0].fileId != b.fileId && CaseFold(a[0].path) != CaseFold(b.path)
  {
    ByFoldedPathAt(remote);
    hide CaseFold, ByFoldedPath;
    assert local[|before|] == l;
    forall x | x in before ensures CaseFold(x.path) != CaseFold(l.path)
      && (PresentText(x.fileId) ==> x.fileId != l.fileId)
    {
      var i :| 0 <= i < |before| && before[i] == x;
      assert local[i] == x;
    }
    var (a, _, n) := PlanFile(l, ByFoldedPath(remote), FileIds(remote), newIds(drawn));
    if a != [] && a[0].create && b.create && n == 0 {
      assert l in local && PresentText(l.fileId) && l.fileId == Some(a[0].fileId);
    }
  }

  lemma DistinctPrefix(local: seq<LocalFile>)
    requires local != [] && DistinctLocal(local) && DistinctLocalIds(local)
    ensures DistinctLocal(local[..|local| - 1]) && DistinctLocalIds(local[..|local| - 1])
  {
    hide CaseFold;
  }

  lemma ContentsComeFromFiles(actions: seq<PushAction>, local: seq<LocalFile>, remote: seq<RemoteFile>, newIds: Supply,
          drawn: nat, b: PushAction)
    requires SoundContents(actions, local, remote, newIds, drawn) && b in actions
    ensures exists x :: x in local && x.path == b.path
    ensures b.Content? && (b.create ==> b.fileId !in FileIds(remote))
  {
    hide CaseFold;
    if UpdatesSome(b, local, remote) {
      var x, e :| x in local && e in remote && UpdatesMatch(b, x, e);
    } else {
      var x :| x in local && CreatesMissing(b, x, remote);
    }
  }

  /** The content actions: sound, one for each file that needs one, with distinct targets and paths. */
  ghost predicate GoodContents(actions: seq<PushAction>, local: seq<LocalFile>, remote: seq<RemoteFile>, newIds: Supply,
          drawn: nat) {
    && SoundContents(actions, local, remote, newIds, drawn) && DistinctTargets(actions) && DistinctPaths(actions)
    && forall l :: l in local ==> Handled(l, actions, remote)
  }

  lemma OneMoreFile(actions: seq<PushAction>, before: seq<LocalFile>, l: LocalFile, remote: seq<RemoteFile>,
          newIds: Supply, drawn: nat)
    requires DistinctRemote(remote) && FreshIds(newIds, before + [l], FileIds(remote)) && DistinctLocal(before + [l])
    requires DistinctLocalIds(before + [l])
    requires GoodContents(actions, before, remote, newIds, drawn)
    ensures var (a, _, n) := PlanFile(l, ByFoldedPath(remote), FileIds(remote), newIds(drawn));
      GoodContents(actions + a, before + [l], remote, newIds, drawn + n)
  {
    hide PlanFile, CaseFold, IdSource, UpdatesSome, CreatesSome, DistinctRemote, FreshIds, DistinctLocal,
        DistinctLocalIds;
    var local := before + [l];
    var (a, _, n) := PlanFile(l, ByFoldedPath(remote), FileIds(remote), newIds(drawn));
    OneFile(l, local, remote, newIds, drawn);
    SoundMore(actions, before, l, remote, newIds, drawn, drawn + n);
    forall b | b in actions ensures a != [] ==> a[0].fileId != b.fileId && CaseFold(a[0].path) != CaseFold(b.path) {
      ContentsComeFromFiles(actions, before, remote, newIds, drawn, b);
      DifferentTargets(l, b, before, local, remote, newIds, drawn);
    }
    forall x | x in local ensures Handled(x, actions + a, remote) {
      if x in before { assert Handled(x, actions, remote); }
    }
  }

  lemma {:induction false} ContentsAreGood(local: seq<LocalFile>, remote: seq<RemoteFile>, newIds: Supply)
    requires DistinctRemote(remote) && FreshIds(newIds, local, FileIds(remote)) && DistinctLocal(local)
    requires DistinctLocalIds(local)
    ensures var (actions, _, drawn) := PlanFiles(local, ByFoldedPath(remote), FileIds(remote), newIds, 0);
      GoodContents(actions, local, remote, newIds, drawn)
  {
    hide PlanFile, CaseFold, DistinctRemote, GoodContents;
    if local == [] {
      NoContents(remote, newIds);
    } else {
      var before, l := local[..|local| - 1], local[|local| - 1];
      assert local == before + [l];
      DistinctPrefix(local);
      ContentsAreGood(before, remote, newIds);
      var (actions, _, drawn) := PlanFiles(before, ByFoldedPath(remote), FileIds(remote), newIds, 0);
      OneMoreFile(actions, before, l, remote, newIds, drawn);
    }
  }

  lemma NoContents(remote: seq<RemoteFile>, newIds: Supply)
    ensures GoodContents([], [], remote, newIds, 0)
  {
  }

  ghost predicate Targeted(e: RemoteFile, actions: seq<PushAction>) {
    exists a :: a in actions && a.fileId == e.fileId
  }

  ghost predicate GoodRemovals(rs: seq<PushAction>, local: seq<LocalFile>, remote: seq<RemoteFile>) {
    && DistinctTargets(rs)
    && (forall a :: a in rs ==> RemovesStray(a, local, remote))
    && (forall e :: e in remote && CaseFold(e.path) !in FoldedPaths(local) ==> Targeted(e, rs))
  }

  lemma StrayStays(a: PushAction, local: seq<LocalFile>, before: seq<RemoteFile>, e: RemoteFile)
    requires RemovesStray(a, local, before) && forall x :: x in before ==> x.fileId != e.fileId
    ensures RemovesStray(a, local, before + [e]) && a.fileId != e.fileId
  {
    hide CaseFold, FoldedPaths;
    var x :| x in before && a == Remove(x.fileId, x.path, x.fileType) && CaseFold(x.path) !in FoldedPaths(local);
    assert x in before + [e];
  }

  lemma OneMoreRemoval(rs: seq<PushAction>, before: seq<RemoteFile>, e: RemoteFile, local: seq<LocalFile>)
    requires GoodRemovals(rs, local, before) && forall x :: x in before ==> x.fileId != e.fileId
    ensures CaseFold(e.path) in FoldedPaths(local) ==> GoodRemovals(rs, local, before + [e])
    ensures CaseFold(e.path) !in FoldedPaths(local) ==>
      GoodRemovals(rs + [Remove(e.fileId, e.path, e.fileType)], local, before + [e])
  {
    hide CaseFold, FoldedPaths;
    forall a | a in rs ensures a.fileId != e.fileId && RemovesStray(a, local, before + [e]) {
      StrayStays(a, local, before, e);
    }
    var last := Remove(e.fileId, e.path, e.fileType);
    assert CaseFold(e.path) !in FoldedPaths(local) ==> RemovesStray(last, local, before + [e]) by {
      assert e in before + [e];
    }
    hide RemovesStray;
    forall x | x in before && CaseFold(x.path) !in FoldedPaths(local)
      ensures Targeted(x, rs) && Targeted(x, rs + [last])
    {
      var a :| a in rs && a.fileId == x.fileId;
      assert a in rs + [last];
    }
    assert Targeted(e, rs + [last]) by {
      assert last in rs + [last];
    }
    hide Targeted;
  }

  lemma {:induction false} RemovalsAre(remote: seq<RemoteFile>, local: seq<LocalFile>)
    requires DistinctRemote(remote)
    ensures GoodRemovals(Removals(remote, FoldedPaths(local)), local, remote)
  {
    hide CaseFold, FoldedPaths;
    if remote != [] {
      var before, e := remote[..|remote| - 1], remote[|remote| - 1];
      assert remote == before + [e];
      RemovalsAre(before, local);
      hide GoodRemovals;
      OneMoreRemoval(Removals(before, FoldedPaths(local)), before, e, local);
      assert Removals(before, FoldedPaths(local)) + [] == Removals(before, FoldedPaths(local));
    }
  }

  /** What a reader of the plan can rely on: each action overwrites a remote file with the local one
      at its path, creates a local file the server does not have under an id it does not have, or
      removes a remote file that is not local; no file is the target of two actions; and everything
      that differs is handled. */
  ghost predicate GoodPlan(actions: seq<PushAction>, local: seq<LocalFile>, remote: seq<RemoteFile>) {
    && DistinctTargets(actions)
    && (forall a :: a in actions ==>
          UpdatesSome(a, local, remote) || CreatesSome(a, local, remote) || RemovesStray(a, local, remote))
    && (forall l :: l in local ==> Handled(l, actions, remote))
    && (forall e :: e in remote && CaseFold(e.path) !in FoldedPaths(local) ==> Targeted(e, actions))
    && (forall i, k :: 0 <= i < k < |actions| && actions[i].Content? && actions[k].Content? ==>
          CaseFold(actions[i].path) != CaseFold(actions[k].path))
  }

  lemma StrayIsNoTarget(a: PushAction, b: PushAction, local: seq<LocalFile>, remote: seq<RemoteFile>)
    requires DistinctRemote(remote) && RemovesStray(b, local, remote)
    requires UpdatesSome(a, local, remote) || CreatesSome(a, local, remote)
    ensures a.fileId != b.fileId
  {
    hide CaseFold;
  }

  lemma PlanIsGood(local: seq<LocalFile>, remote: seq<RemoteFile>, newIds: Supply)
    requires DistinctRemote(remote) && FreshIds(newIds, local, FileIds(remote)) && DistinctLocal(local)
    requires DistinctLocalIds(local)
    ensures GoodPlan(PlanOf(local, remote, newIds).actions, local, remote)
  {
    ContentsAreGood(local, remote, newIds);
    RemovalsAre(remote, local);
    var (contents, _, drawn) := PlanFiles(local, ByFoldedPath(remote), FileIds(remote), newIds, 0);
    var removals := Removals(remote, FoldedPaths(local));
    hide PlanFiles, Removals, CaseFold, IdSource, ByFoldedPath, FreshIds, DistinctLocal, DistinctLocalIds;
    forall i, k | 0 <= i < |contents| && 0 <= k < |removals| ensures contents[i].fileId != removals[k].fileId {
      StrayIsNoTarget(contents[i], removals[k], local, remote);
    }
    hide DistinctRemote, UpdatesSome, CreatesSome, RemovesStray;
    JoinPlan(contents, removals, local, remote, newIds, drawn);
  }

  lemma JoinPlan(contents: seq<PushAction>, removals: seq<PushAction>, local: seq<LocalFile>, remote: seq<RemoteFile>,
          newIds: Supply, drawn: nat)
    requires GoodContents(contents, local, remote, newIds, drawn) && GoodRemovals(removals, local, remote)
    requires forall i, k :: 0 <= i < |contents| && 0 <= k < |removals| ==> contents[i].fileId != removals[k].fileId
    ensures GoodPlan(contents + removals, local, remote)
  {
    hide CaseFold, IdSource, UpdatesSome, CreatesSome;
    var actions := contents + removals;
    forall l | l in local ensures Handled(l, actions, remote) {
      assert Handled(l, contents, remote);
    }
    forall k | 0 <= k < |removals| ensures !removals[k].Content? {
      assert RemovesStray(removals[k], local, remote);
    }
    forall e | e in remote && CaseFold(e.path) !in FoldedPaths(local) ensures Targeted(e, actions) {
      assert Targeted(e, removals);
    }
  }

  // ---- pulling ----

  /** Local paths that the remote vault does not have. */
  function PlanForcePullStrays(localPaths: seq<string>, remote: seq<RemoteFile>): seq<string> {
    if localPaths == [] then []
    else (if CaseFold(localPaths[0]) !in RemotePaths(remote) then [localPaths[0]] else [])
           + PlanForcePullStrays(localPaths[1..], remote)
  }

  function RemotePaths(remote: seq<RemoteFile>): set<string> { set e | e in remote :: CaseFold(e.path) }

  ghost function FoldedSet(paths: seq<string>): set<string> { set p | p in paths :: CaseFold(p) }

  lemma {:induction false} StraysAre(localPaths: seq<string>, remote: seq<RemoteFile>)
    ensures forall p :: p in PlanForcePullStrays(localPaths, remote) <==>
      p in localPaths && CaseFold(p) !in RemotePaths(remote)
  {
    if localPaths != [] { StraysAre(localPaths[1..], remote); }
  }

  /** Once the remote files are written and the strays are trashed, the local vault has exactly the
      remote paths, and every path trashed was local. */
  lemma PullMirrorsRemote(localPaths: seq<string>, remote: seq<RemoteFile>)
    ensures var strays := PlanForcePullStrays(localPaths, remote);
      FoldedSet(localPaths) + RemotePaths(remote) - FoldedSet(strays) == RemotePaths(remote)
          && forall p :: p in strays ==> p in localPaths
  {
    StraysAre(localPaths, remote);
    hide PlanForcePullStrays;
    var strays := PlanForcePullStrays(localPaths, remote);
    forall p | p in FoldedSet(localPaths) && p !in RemotePaths(remote) ensures p in FoldedSet(strays) {
      var x :| x in localPaths && CaseFold(x) == p;
      assert x in strays;
    }
  }

  // ---- ids are kept ----

  /** A local file the server does not have at its path is created under the id the client knows it by, unless
      a remote file has that id, or it has none: then under a drawn id. */
  lemma {:induction false} KnownIdIsKept(local: seq<LocalFile>, remote: seq<RemoteFile>, newIds: Supply, l: LocalFile)
    requires l in local && forall e :: e in remote ==> CaseFold(e.path) != CaseFold(l.path)
    ensures var actions := PlanOf(local, remote, newIds).actions;
      if l.fileId.Some? && l.fileId != Some("") && (forall e :: e in remote ==> Some(e.fileId) != l.fileId)
      then Content(true, l.fileId.value, l.path, l.fileType, map[]) in actions
      else exists i: nat :: Content(true, newIds(i), l.path, l.fileType, map[]) in actions
  {
    NotAtPath(remote, l.path);
    PlannedUnder(local, ByFoldedPath(remote), FileIds(remote), newIds, l);
    hide PlanFiles, CaseFold, ByFoldedPath, Removals;
  }

  lemma {:induction false} NotAtPath(remote: seq<RemoteFile>, path: string)
    requires forall e :: e in remote ==> CaseFold(e.path) != CaseFold(path)
    ensures CaseFold(path) !in ByFoldedPath(remote)
  {
    hide CaseFold;
    if remote != [] { NotAtPath(remote[..|remote| - 1], path); }
  }

  lemma {:induction false} PlannedUnder(local: seq<LocalFile>, byPath: map<string, RemoteFile>, remoteIds: set<string>,
          newIds: Supply, l: LocalFile)
    requires l in local && CaseFold(l.path) !in byPath
    ensures var actions := PlanFiles(local, byPath, remoteIds, newIds, 0).0;
      if PresentText(l.fileId) && l.fileId.value !in remoteIds
      then Content(true, l.fileId.value, l.path, l.fileType, map[]) in actions
      else exists i: nat :: Content(true, newIds(i), l.path, l.fileType, map[]) in actions
  {
    hide CaseFold;
    var before, last := local[..|local| - 1], local[|local| - 1];
    var (actions, _, d) := PlanFiles(before, byPath, remoteIds, newIds, 0);
    if l in before {
      PlannedUnder(before, byPath, remoteIds, newIds, l);
      if !(PresentText(l.fileId) && l.fileId.value !in remoteIds) {
        var i: nat :| Content(true, newIds(i), l.path, l.fileType, map[]) in actions;
        assert Content(true, newIds(i), l.path, l.fileType, map[]) in PlanFiles(local, byPath, remoteIds, newIds, 0).0;
      }
    } else {
      assert local == before + [last] && l == last;
      var planned := PlanFile(l, byPath, remoteIds, newIds(d)).0;
      assert planned == [planned[0]] && PlanFiles(local, byPath, remoteIds, newIds, 0).0 == actions + planned;
      assert planned[0] in actions + planned;
    }
  }
}
