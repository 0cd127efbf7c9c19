/** Allocation of paths: the first free candidate is taken, allocation fails only against 9998
    other live files, and live paths stay distinct ignoring case. */
module PathAllocation {
  import opened Basics
  import opened Options
  import opened OrderedMaps
  import opened VersionVectors
  import opened PathClocks
  import opened Paths
  import opened Vault
  import opened VaultRuns
  import opened ConflictFreeze

  /** Stored files carry the folded form of their path. */
  ghost predicate Folded(files: Files) {
    forall f :: f in files ==> files[f].pathNormalized == CaseFold(files[f].path)
  }

  /** No two live files share a path, ignoring case. */
  ghost predicate Distinct(files: Files) {
    forall f, g :: f in files && g in files && f != g && !files[f].deleted && !files[g].deleted ==>
      files[f].pathNormalized != files[g].pathNormalized
  }

  /** Another live file sits at the path. */
  ghost predicate Occupied(files: Files, path: string, fileId: string) {
    exists f :: f in files && f != fileId && LiveAt(files[f], CaseFold(path))
  }

  // ---- the search ----

  lemma TakenIsOccupied(files: OrderedMap<string, StoredFile>, path: string, fileId: string)
    requires Keyed(files.at)
    ensures Taken(files, path, fileId) ==> Occupied(files.at, path, fileId)
    ensures Distinct(files.at) && Occupied(files.at, path, fileId) ==> Taken(files, path, fileId)
  {
    var hit := FindLiveFileByPath(files, CaseFold(path));
    if Distinct(files.at) && Occupied(files.at, path, fileId) {
      var f :| f in files.at && f != fileId && LiveAt(files.at[f], CaseFold(path));
      assert hit.value == f;
    }
  }

  /** From candidate k on, the i-th is the first that is not taken. */
  ghost predicate PickedAt(files: OrderedMap<string, StoredFile>, desired: string, fileId: string, k: nat, i: nat,
          path: string) {
    && k <= i < CANDIDATES && path == Candidate(desired, i) && !Taken(files, path, fileId)
    && forall l :: k <= l < i ==> Taken(files, Candidate(desired, l), fileId)
  }

  lemma {:induction false} FirstFreeFinds(files: OrderedMap<string, StoredFile>, desired: string, fileId: string,
          k: nat)
    requires k <= CANDIDATES
    ensures var r := FirstFree(files, desired, fileId, k);
      && (r.None? ==> forall i :: k <= i < CANDIDATES ==> Taken(files, Candidate(desired, i), fileId))
      && (r.Some? ==> exists i :: PickedAt(files, desired, fileId, k, i, r.value))
    decreases CANDIDATES - k
  {
    hide Taken, Candidate;
    if k < CANDIDATES {
      if Taken(files, Candidate(desired, k), fileId) {
        FirstFreeFinds(files, desired, fileId, k + 1);
        if FirstFree(files, desired, fileId, k).Some? {
          var i :| PickedAt(files, desired, fileId, k + 1, i, FirstFree(files, desired, fileId, k).value);
          assert PickedAt(files, desired, fileId, k, i, FirstFree(files, desired, fileId, k).value);
        }
      } else {
        assert PickedAt(files, desired, fileId, k, k, Candidate(desired, k));
      }
    }
  }

  lemma CandidatesDiffer(desired: string, k: nat, l: nat)
    requires k < l
    ensures CaseFold(Candidate(desired, k)) != CaseFold(Candidate(desired, l))
  {
    SuffixInjective(desired, k + 1, l + 1);
    hide CaseFold, SuffixPath;
  }

  /** The live files other than fileId. */
  ghost function OtherLive(files: Files, fileId: string): set<string> {
    set f | f in files && f != fileId && !files[f].deleted
  }

  ghost function Blocker(files: Files, desired: string, fileId: string, k: nat): string
    requires Occupied(files, Candidate(desired, k), fileId)
  {
    var f :| f in files && f != fileId && LiveAt(files[f], CaseFold(Candidate(desired, k)));
    f
  }

  ghost function Blockers(files: Files, desired: string, fileId: string, n: nat): set<string>
    requires forall k: nat :: k < n ==> Occupied(files, Candidate(desired, k), fileId)
  {
    if n == 0 then {} else Blockers(files, desired, fileId, n - 1) + {Blocker(files, desired, fileId, n - 1)}
  }

  lemma {:induction false} BlockersCount(files: Files, desired: string, fileId: string, n: nat)
    requires forall k: nat :: k < n ==> Occupied(files, Candidate(desired, k), fileId)
    ensures |Blockers(files, desired, fileId, n)| == n
    ensures forall f :: f in Blockers(files, desired, fileId, n) ==>
      f in OtherLive(files, fileId)
      && exists k: nat :: k < n && files[f].pathNormalized == CaseFold(Candidate(desired, k))
  {
    hide CaseFold, Candidate, Occupied;
    if n > 0 {
      BlockersCount(files, desired, fileId, n - 1);
      var b := Blocker(files, desired, fileId, n - 1);
      var before := Blockers(files, desired, fileId, n - 1);
      if b in before {
        var k: nat :| k < n - 1 && files[b].pathNormalized == CaseFold(Candidate(desired, k));
        CandidatesDiffer(desired, k, n - 1);
      }
    }
  }

  /** The k-th candidate is the first that no other live file occupies. */
  ghost predicate FirstUnoccupied(files: Files, desired: string, fileId: string, k: nat, path: string) {
    && k < CANDIDATES && path == Candidate(desired, k) && !Occupied(files, path, fileId)
    && forall l :: 0 <= l < k ==> Occupied(files, Candidate(desired, l), fileId)
  }

  /** The chosen path is the first candidate no other live file occupies; when there is none, at
      least 9998 other files are live. */
  lemma UniquePathAllocates(files: OrderedMap<string, StoredFile>, desired: string, fileId: string)
    requires Keyed(files.at) && Distinct(files.at)
    ensures var r := UniquePath(files, desired, fileId);
      && (r.Some? ==> exists k :: FirstUnoccupied(files.at, desired, fileId, k, r.value))
      && (r.None? <==> forall k :: 0 <= k < CANDIDATES ==> Occupied(files.at, Candidate(desired, k), fileId))
      && (r.None? ==> |OtherLive(files.at, fileId)| >= 9998)
  {
    hide Occupied, Taken, Candidate, Distinct, FirstFree, OtherLive;
    FirstFreeFinds(files, desired, fileId, 0);
    forall k: nat ensures Taken(files, Candidate(desired, k), fileId) <==>
      Occupied(files.at, Candidate(desired, k), fileId)
    {
      TakenIsOccupied(files, Candidate(desired, k), fileId);
    }
    if UniquePath(files, desired, fileId).None? {
      AllBlocked(files.at, desired, fileId);
    } else {
      var path := UniquePath(files, desired, fileId).value;
      var k :| PickedAt(files, desired, fileId, 0, k, path);
      assert FirstUnoccupied(files.at, desired, fileId, k, path);
    }
  }

  /** The path that was asked for if nobody else has it, otherwise the first free one with a number from 2 to
      9998 behind the stem; none is left exactly if all of them are occupied. */
  lemma AllocatedPathIs(files: OrderedMap<string, StoredFile>, desired: string, fileId: string)
    requires Keyed(files.at) && Distinct(files.at)
    ensures var r := UniquePath(files, desired, fileId);
      && (!Occupied(files.at, desired, fileId) ==> r == Some(desired))
      && (Occupied(files.at, desired, fileId) && r.Some? ==>
            exists n: nat :: 2 <= n <= 9998 && r == Some(SuffixPath(desired, n))
                             && FirstNumber(files.at, desired, fileId, n))
      && (r.None? <==>
            Occupied(files.at, desired, fileId)
            && forall n: nat :: 2 <= n <= 9998 ==> Occupied(files.at, SuffixPath(desired, n), fileId))
  {
    UniquePathAllocates(files, desired, fileId);
    var r := UniquePath(files, desired, fileId);
    assert Candidate(desired, 0) == desired;
    forall n: nat | n >= 2 ensures SuffixPath(desired, n) == Candidate(desired, n - 1) {
    }
    hide Occupied, SuffixPath, UniquePath, Distinct, Keyed, OtherLive;
    if r.Some? {
      var k: nat :| FirstUnoccupied(files.at, desired, fileId, k, r.value);
      if k > 0 {
        assert Occupied(files.at, Candidate(desired, 0), fileId);
        forall m: nat | 2 <= m < k + 1 ensures Occupied(files.at, SuffixPath(desired, m), fileId) {
          assert SuffixPath(desired, m) == Candidate(desired, m - 1);
        }
        assert FirstNumber(files.at, desired, fileId, k + 1);
      }
    } else {
      assert Occupied(files.at, Candidate(desired, 0), fileId);
    }
  }

  ghost predicate FirstNumber(files: Files, desired: string, fileId: string, n: nat) {
    && !Occupied(files, SuffixPath(desired, n), fileId)
    && forall m: nat :: 2 <= m < n ==> Occupied(files, SuffixPath(desired, m), fileId)
  }

  lemma AllBlocked(files: Files, desired: string, fileId: string)
    requires forall k: nat :: k < CANDIDATES ==> Occupied(files, Candidate(desired, k), fileId)
    ensures |OtherLive(files, fileId)| >= 9998
  {
    hide Occupied, Candidate, OtherLive, Blockers;
    BlockersCount(files, desired, fileId, CANDIDATES);
    SubsetCount(Blockers(files, desired, fileId, CANDIDATES), OtherLive(files, fileId));
  }

  lemma {:induction false} AllocatedIsFree(files: OrderedMap<string, StoredFile>, desired: string, fileId: string)
    requires Keyed(files.at) && Distinct(files.at) && UniquePath(files, desired, fileId).Some?
    ensures !Occupied(files.at, UniquePath(files, desired, fileId).value, fileId)
  {
    UniquePathAllocates(files, desired, fileId);
    hide Occupied, Candidate, UniquePath, Distinct;
  }

  /** A wanted path that no other live file occupies is taken as it is. */
  lemma FreePathIsKept(files: OrderedMap<string, StoredFile>, desired: string, f: string)
    requires Keyed(files.at) && !Occupied(files.at, desired, f)
    ensures UniquePath(files, desired, f) == Some(desired)
  {
    TakenIsOccupied(files, desired, f);
    hide Occupied, Taken;
    assert Candidate(desired, 0) == desired;
  }

  // ---- live paths stay distinct ----

  lemma WriteKeepsDistinct(files: Files, file: StoredFile)
    requires Keyed(files) && Distinct(files) && Folded(files) && file.pathNormalized == CaseFold(file.path)
    ensures Folded(files[file.fileId := file])
    ensures Distinct(files[file.fileId := file]) <==> file.deleted || !Occupied(files, file.path, file.fileId)
  {
    var files' := files[file.fileId := file];
    if !file.deleted && Occupied(files, file.path, file.fileId) {
      var f :| f in files && f != file.fileId && LiveAt(files[f], CaseFold(file.path));
      assert f in files' && file.fileId in files' && !files'[f].deleted
        && files'[f].pathNormalized == files'[file.fileId].pathNormalized;
    } else {
      forall f, g | f in files' && g in files' && f != g && !files'[f].deleted && !files'[g].deleted
        ensures files'[f].pathNormalized != files'[g].pathNormalized
      {
        if f == file.fileId {
          assert !LiveAt(files[g], CaseFold(file.path));
        } else if g == file.fileId {
          assert !LiveAt(files[f], CaseFold(file.path));
        }
      }
    }
  }

  lemma NotOccupiedByItself(files: Files, f: string)
    requires Distinct(files) && Folded(files) && f in files && !files[f].deleted
    ensures !Occupied(files, files[f].path, f)
  {
  }

  /** The operation brings a deleted file back under the path it had. */
  predicate RevivesInPlace(s: State, op: FileOp) {
    op.kind.Update? && op.fileId in s.files.at && s.files.at[op.fileId].deleted
  }

  /** The written file's folded form is right, and its path, if the file is live, was allocated or
      already its own, unless the operation revives a deleted file in place. */
  ghost predicate GoodPath(s: State, op: FileOp, file: StoredFile) {
    && file.fileId == op.fileId && file.pathNormalized == CaseFold(file.path)
    && (RevivesInPlace(s, op) ==> file.path == s.files.at[op.fileId].path)
    && (!RevivesInPlace(s, op) ==> file.deleted || !Occupied(s.files.at, file.path, op.fileId))
  }

  ghost predicate PathsFine(s: State) {
    Keyed(s.files.at) && Distinct(s.files.at) && Folded(s.files.at)
  }

  lemma OwnPath(s: State, f: string)
    requires PathsFine(s) && f in s.files.at
    ensures s.files.at[f].fileId == f && s.files.at[f].pathNormalized == CaseFold(s.files.at[f].path)
    ensures s.files.at[f].deleted || !Occupied(s.files.at, s.files.at[f].path, f)
  {
    if !s.files.at[f].deleted { NotOccupiedByItself(s.files.at, f); }
  }

  lemma UpdatePath(s: State, op: FileOp, freshId: string)
    requires PathsFine(s) && op.fileId in s.files.at && (op.kind.Update? || !s.files.at[op.fileId].deleted)
    requires ApplyUpdate(s, op, s.files.at[op.fileId], freshId).Success?
    ensures GoodPath(s, op, ApplyUpdate(s, op, s.files.at[op.fileId], freshId).value.file)
  {
    OwnPath(s, op.fileId);
    hide PathsFine, Occupied, CaseFold, Dominates, UpdatedRefs, SideRef, CreateConflict;
  }

  lemma {:induction false} CreatePath(s: State, op: FileOp, freshId: string)
    requires PathsFine(s) && op.kind.Create? && ApplyCreate(s, op, Lookup(s.files, op.fileId), freshId).Success?
    ensures GoodPath(s, op, ApplyCreate(s, op, Lookup(s.files, op.fileId), freshId).value.file)
  {
    if op.fileId in s.files.at && !s.files.at[op.fileId].deleted {
      UpdatePath(s, op, freshId);
    } else {
      AllocatedIsFree(s.files, NormalizePath(op.newPath.GetOr(op.fileId)).value, op.fileId);
    }
    hide PathsFine, Occupied, CaseFold, UniquePath, NormalizePath, ApplyUpdate, UpdatedRefs;
  }

  lemma {:induction false} RenamePath(s: State, op: FileOp)
    requires PathsFine(s) && op.fileId in s.files.at && op.kind.Rename?
    requires ApplyRename(s, op, s.files.at[op.fileId]).Success?
    ensures GoodPath(s, op, ApplyRename(s, op, s.files.at[op.fileId]).value.file)
  {
    var file := s.files.at[op.fileId];
    OwnPath(s, op.fileId);
    if PathClockWins(op.pathClock.value, file.pathClock) {
      AllocatedIsFree(s.files, NormalizePath(op.newPath.GetOr(file.path)).value, op.fileId);
    }
    hide PathsFine, Occupied, CaseFold, UniquePath, NormalizePath, PathClockWins;
  }

  lemma {:induction false} RestorePath(s: State, op: FileOp)
    requires PathsFine(s) && op.fileId in s.files.at && op.kind.Restore?
    requires ApplyRestore(s, op, s.files.at[op.fileId]).Success?
    ensures GoodPath(s, op, ApplyRestore(s, op, s.files.at[op.fileId]).value.file)
  {
    OwnPath(s, op.fileId);
    AllocatedIsFree(s.files, NormalizePath(op.newPath.GetOr(s.files.at[op.fileId].path)).value, op.fileId);
    hide PathsFine, Occupied, CaseFold, UniquePath, NormalizePath, UpdatedRefs, Join;
  }

  lemma {:induction false} EffectPath(s: State, op: FileOp, now: nat, freshId: string)
    requires PathsFine(s) && Prepare(s, op, now, freshId).Success?
    ensures GoodPath(s, op, Prepare(s, op, now, freshId).value.file)
  {
    hide PathsFine, GoodPath, ApplyCreate, ApplyUpdate, ApplyRename, ApplyRestore, Validate;
    assert Prepare(s, op, now, freshId) == Apply(s, op, Lookup(s.files, op.fileId), freshId);
    match op.kind
    case Create => CreatePath(s, op, freshId);
    case Update => UpdatePath(s, op, freshId);
    case Rename => RenamePath(s, op);
    case Delete => DeletePath(s, op);
    case Restore => RestorePath(s, op);
  }

  lemma DeletePath(s: State, op: FileOp)
    requires PathsFine(s) && op.fileId in s.files.at && op.kind.Delete?
    ensures GoodPath(s, op, ApplyDelete(s, op, s.files.at[op.fileId]).file)
  {
    OwnPath(s, op.fileId);
    hide PathsFine, Occupied, CaseFold;
  }

  lemma FoldedAt(files: Files, f: string)
    requires Folded(files) && f in files
    ensures files[f].pathNormalized == CaseFold(files[f].path)
  {
  }

  /** An accepted operation keeps live paths distinct, except that one reviving a deleted file in
      place does so exactly when no live file has taken its path meanwhile. */
  lemma ProcessKeepsDistinct(s: State, op: FileOp, mayWrite: bool, now: nat, freshId: string)
    requires Keyed(s.files.at) && Distinct(s.files.at) && Folded(s.files.at)
    ensures var s' := Process(s, op, mayWrite, now, freshId).0;
      && Folded(s'.files.at)
      && (Commits(s, op, mayWrite, now, freshId) && RevivesInPlace(s, op)
            && !Prepare(s, op, now, freshId).value.file.deleted ==>
            (Distinct(s'.files.at) <==> !Occupied(s.files.at, s.files.at[op.fileId].path, op.fileId)))
      && (!(Commits(s, op, mayWrite, now, freshId) && RevivesInPlace(s, op)) ==> Distinct(s'.files.at))
  {
    ProcessCases(s, op, mayWrite, now, freshId);
    hide Process, Prepare, Distinct, Folded, Occupied, CaseFold, Record, StoredContent, Admission;
    if Commits(s, op, mayWrite, now, freshId) {
      EffectPath(s, op, now, freshId);
      WriteKeepsDistinct(s.files.at, Prepare(s, op, now, freshId).value.file);
    }
  }

  /** A resolution revives the file in place; on a deleted file it keeps live paths distinct exactly
      when no live file has taken the path meanwhile. */
  lemma ResolveKeepsDistinct(s: State, input: ResolveInput, mayWrite: bool)
    requires Keyed(s.files.at) && Distinct(s.files.at) && Folded(s.files.at) && Resolve(s, input, mayWrite).0 != s
    ensures var s' := Resolve(s, input, mayWrite).0;
      && input.conflictId in s.conflicts.at && s.conflicts.at[input.conflictId].fileId in s.files.at
      && var file := s.files.at[s.conflicts.at[input.conflictId].fileId];
         && Folded(s'.files.at)
         && (Distinct(s'.files.at) <==> !file.deleted || !Occupied(s.files.at, file.path, file.fileId))
  {
    var s' := Resolve(s, input, mayWrite).0;
    hide ResolvedContent, ResolvedRefs, JoinedVV, Distinct, Folded, Occupied, CaseFold;
    var file := s.files.at[s.conflicts.at[input.conflictId].fileId];
    FoldedAt(s.files.at, file.fileId);
    if !file.deleted { NotOccupiedByItself(s.files.at, file.fileId); }
    WriteKeepsDistinct(s.files.at, s'.files.at[file.fileId]);
  }

  // ---- runs ----

  /** An operation or a resolution that brings a deleted file back in place finds its path free. */
  ghost predicate RevivesFreely(s: State, e: Event) {
    && (e.Submit? && Commits(s, e.op, e.mayWrite, e.now, e.freshId) && RevivesInPlace(s, e.op)
        && !Prepare(s, e.op, e.now, e.freshId).value.file.deleted ==>
          !Occupied(s.files.at, s.files.at[e.op.fileId].path, e.op.fileId))
    && (e.ResolveConflict? && Resolve(s, e.input, e.mayWrite).0 != s && e.input.conflictId in s.conflicts.at ==>
          var f := s.conflicts.at[e.input.conflictId].fileId;
          f in s.files.at && s.files.at[f].deleted ==> !Occupied(s.files.at, s.files.at[f].path, f))
  }

  lemma {:induction false} StepKeepsDistinct(s: State, e: Event)
    requires Keyed(s.files.at) && Distinct(s.files.at) && Folded(s.files.at)
    ensures Folded(Step(s, e).files.at) && Keyed(Step(s, e).files.at)
    ensures Distinct(Step(s, e).files.at) <==> RevivesFreely(s, e)
  {
    StepKeepsKeyed(s, e);
    hide Distinct, Folded, Occupied, Process, Resolve, Claim, Release, CollectedBlobs, Keyed, Prepare, Commits;
    if e.Submit? {
      ProcessKeepsDistinct(s, e.op, e.mayWrite, e.now, e.freshId);
    } else if e.ResolveConflict? {
      if Resolve(s, e.input, e.mayWrite).0 != s {
        ResolveKeepsDistinct(s, e.input, e.mayWrite);
        KeyedAt(s.files.at, s.conflicts.at[e.input.conflictId].fileId);
      }
    } else if e.Lease? {
      LeaseKeepsDistinct(s, e.fileId, e.until);
    } else if e.ClaimConflict? || e.ReleaseConflict? {
      ClaimsKeepFiles(s, e);
    }
  }

  lemma KeyedAt(files: Files, f: string)
    requires Keyed(files) && f in files
    ensures files[f].fileId == f
  {
  }

  lemma ClaimsKeepFiles(s: State, e: Event)
    requires e.ClaimConflict? || e.ReleaseConflict?
    ensures OtherStep(s, e).files == s.files
  {
  }

  lemma LeaseKeepsDistinct(s: State, fileId: string, until: Option<nat>)
    requires Keyed(s.files.at) && Distinct(s.files.at) && Folded(s.files.at)
    ensures Distinct(SetActive(s, fileId, until).files.at) && Folded(SetActive(s, fileId, until).files.at)
  {
  }

  ghost predicate FreeRevivals(s: State, events: seq<Event>) {
    |events| > 0 ==>
      FreeRevivals(s, events[..|events| - 1]) && RevivesFreely(Run(s, events[..|events| - 1]), events[|events| - 1])
  }

  /** At every moment of the run no two live files share a path, ignoring case. */
  ghost predicate DistinctThroughout(s: State, events: seq<Event>) {
    (|events| > 0 ==> DistinctThroughout(s, events[..|events| - 1])) && Distinct(Run(s, events).files.at)
  }

  /** Live paths are distinct throughout a run exactly if each revival in place finds its path free. */
  lemma {:induction false} RunKeepsDistinct(events: seq<Event>)
    ensures DistinctThroughout(Initial, events) <==> FreeRevivals(Initial, events)
    ensures DistinctThroughout(Initial, events) ==>
      Folded(Run(Initial, events).files.at) && Keyed(Run(Initial, events).files.at)
  {
    hide Step, RevivesFreely;
    if |events| > 0 {
      RunKeepsDistinct(events[..|events| - 1]);
      if DistinctThroughout(Initial, events[..|events| - 1]) {
        var s := Run(Initial, events[..|events| - 1]);
        assert Distinct(s.files.at);
        hide Folded, Keyed, Distinct;
        StepKeepsDistinct(s, events[|events| - 1]);
      }
    }
  }
}
