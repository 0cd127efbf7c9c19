/** Conflicts over all runs: a file is frozen exactly while one conflict on it is unresolved, and
    that conflict describes the frozen version; a resolution dominates both sides and is final. */
module ConflictFreeze {
  import opened Options
  import opened OrderedMaps
  import opened VersionVectors
  import opened Paths
  import opened Vault
  import opened VaultRuns

  type Files = map<string, StoredFile>
  type Conflicts = map<string, ConflictRecord>

  /** An unresolved conflict is the one its file points at, and its "ours" is the stored version. */
  ghost predicate PendingIsMarked(files: Files, conflicts: Conflicts) {
    forall c :: c in conflicts && !conflicts[c].status.Resolved? ==>
      && c != "" && conflicts[c].fileId in files
      && files[conflicts[c].fileId].conflictId == Some(c) && files[conflicts[c].fileId].contentVV == conflicts[c].oursVV
  }

  /** A mark on a file names an unresolved conflict on that file. */
  ghost predicate MarkIsPending(files: Files, conflicts: Conflicts) {
    forall f :: f in files && files[f].conflictId.Some? ==>
      var c := files[f].conflictId.value;
      c in conflicts && !conflicts[c].status.Resolved? && conflicts[c].fileId == f
  }

  /** A record carries its resolution exactly when it is resolved. */
  ghost predicate Settled(conflicts: Conflicts) {
    forall c :: c in conflicts ==>
      && (conflicts[c].status.Resolved? <==> conflicts[c].resolution.Some?)
      && (conflicts[c].status.Resolved? ==>
            StrictlyDominates(conflicts[c].resolution.value.vv, conflicts[c].oursVV)
                && StrictlyDominates(conflicts[c].resolution.value.vv, conflicts[c].theirsVV))
  }

  ghost predicate Freeze(files: Files, conflicts: Conflicts) {
    Keyed(files) && PendingIsMarked(files, conflicts) && MarkIsPending(files, conflicts) && Settled(conflicts)
  }

  // ---- the four ways files and conflicts change together ----

  lemma UnmarkedWrite(files: Files, conflicts: Conflicts, file: StoredFile)
    requires Freeze(files, conflicts) && file.conflictId.None?
    requires file.fileId in files ==> files[file.fileId].conflictId.None?
    ensures Freeze(files[file.fileId := file], conflicts)
  {
  }

  lemma MarkedWrite(files: Files, conflicts: Conflicts, file: StoredFile)
    requires Freeze(files, conflicts) && file.fileId in files
    requires file.conflictId == files[file.fileId].conflictId && file.contentVV == files[file.fileId].contentVV
    ensures Freeze(files[file.fileId := file], conflicts)
  {
  }

  lemma NewConflict(files: Files, conflicts: Conflicts, file: StoredFile, id: string, record: ConflictRecord)
    requires Freeze(files, conflicts) && id != "" && id !in conflicts
    requires file.fileId in files && files[file.fileId].conflictId.None?
    requires record.fileId == file.fileId && record.status.Open? && record.resolution.None?
    requires record.oursVV == file.contentVV
    requires file.conflictId == Some(id)
    ensures Freeze(files[file.fileId := file], conflicts[id := record])
  {
  }

  lemma Reclaim(files: Files, conflicts: Conflicts, id: string, record: ConflictRecord)
    requires Freeze(files, conflicts) && id in conflicts && !conflicts[id].status.Resolved? && !record.status.Resolved?
    requires record.fileId == conflicts[id].fileId && record.oursVV == conflicts[id].oursVV
    requires record.resolution == conflicts[id].resolution
    ensures Freeze(files, conflicts[id := record])
  {
  }

  lemma Settle(files: Files, conflicts: Conflicts, id: string, record: ConflictRecord, file: StoredFile)
    requires Freeze(files, conflicts) && id in conflicts && !conflicts[id].status.Resolved? && record.status.Resolved?
    requires record.fileId == conflicts[id].fileId == file.fileId && file.conflictId.None?
    requires record.resolution.Some? && StrictlyDominates(record.resolution.value.vv, record.oursVV)
    requires StrictlyDominates(record.resolution.value.vv, record.theirsVV)
    ensures Freeze(files[file.fileId := file], conflicts[id := record])
  {
    hide StrictlyDominates;
    var conflicts' := conflicts[id := record];
    forall c | c in conflicts' && !conflicts'[c].status.Resolved?
      ensures conflicts'[c].fileId != file.fileId
    {
      assert files[conflicts[c].fileId].conflictId == Some(c) && files[conflicts[id].fileId].conflictId == Some(id);
    }
  }

  // ---- steps ----

  /** On an unmarked file no earlier record is reused. */
  lemma FreshConflict(s: State, op: FileOp, freshId: string)
    requires Freeze(s.files.at, s.conflicts.at) && op.fileId in s.files.at && s.files.at[op.fileId].conflictId.None?
    ensures var record := ConflictOf(op, s.files.at[op.fileId]);
      CreateConflict(s.conflicts, record, freshId) == (Set(s.conflicts, freshId, record), freshId)
  {
  }

  lemma {:induction false} CommitKeepsFreeze(s: State, op: FileOp, now: nat, freshId: string)
    requires Freeze(s.files.at, s.conflicts.at) && Prepare(s, op, now, freshId).Success?
    requires freshId !in s.conflicts.at && freshId != ""
    ensures var e := Prepare(s, op, now, freshId).value;
      Freeze(s.files.at[op.fileId := e.file], e.conflicts.at)
  {
    EffectCases(s, op, now, freshId);
    var e := Prepare(s, op, now, freshId).value;
    hide Prepare;
    if op.fileId in s.files.at && ContentKind(op.kind) {
      assert s.files.at[op.fileId].conflictId.None?;
    }
    if Relabels(s, op, e) {
      MarkedWrite(s.files.at, s.conflicts.at, e.file);
    } else if Collides(s, op, e, freshId) {
      FreshConflict(s, op, freshId);
      NewConflict(s.files.at, s.conflicts.at, e.file, freshId, ConflictOf(op, s.files.at[op.fileId]));
    } else {
      UnmarkedWrite(s.files.at, s.conflicts.at, e.file);
    }
  }

  /** What a resolution that goes through writes. */
  lemma ResolveCases(s: State, input: ResolveInput, mayWrite: bool)
    ensures var (s', r) := Resolve(s, input, mayWrite);
      || s' == s
      || (input.conflictId in s.conflicts.at && !s.conflicts.at[input.conflictId].status.Resolved?
          && s.conflicts.at[input.conflictId].claimedBy == Some(input.deviceId)
          && s.conflicts.at[input.conflictId].fileId in s.files.at && r.Done?
          && var conflict := s.conflicts.at[input.conflictId];
             var file := s'.files.at[conflict.fileId];
             && s'.conflicts.at == s.conflicts.at[input.conflictId := r.conflict]
             && s'.files.at == s.files.at[conflict.fileId := file]
             && r.conflict.status.Resolved? && r.conflict.resolution.Some?
             && r.conflict.resolution.value.vv == JoinedVV(conflict, input)
             && r.conflict.fileId == conflict.fileId && r.conflict.oursVV == conflict.oursVV
             && r.conflict.theirsVV == conflict.theirsVV
             && file.fileId == s.files.at[conflict.fileId].fileId && file.conflictId.None?
             && file.contentVV == JoinedVV(conflict, input)
             && file.contentHash == Some(r.conflict.resolution.value.hash))
  {
    hide ResolvedRefs, JoinedVV, ResolvedContent;
  }

  lemma JoinedDominates(conflict: ConflictRecord, input: ResolveInput)
    ensures StrictlyDominates(JoinedVV(conflict, input), conflict.oursVV)
    ensures StrictlyDominates(JoinedVV(conflict, input), conflict.theirsVV)
  {
    var sides := Join(conflict.oursVV, conflict.theirsVV);
    var all := Join(sides, input.resolvedVV);
    var top := Bump(all, input.deviceId);
    JoinIsLeastUpperBound(conflict.oursVV, conflict.theirsVV);
    BumpedJoinStrictlyDominates(sides, input.resolvedVV, input.deviceId);
    AboveStrict(top, sides, conflict.oursVV);
    AboveStrict(top, sides, conflict.theirsVV);
  }

  lemma AboveStrict(a: VersionVector, b: VersionVector, c: VersionVector)
    requires StrictlyDominates(a, b) && Dominates(b, c)
    ensures StrictlyDominates(a, c)
  {
    DominatesTransitive(a, b, c);
    if Dominates(c, a) { DominatesTransitive(b, c, a); }
  }

  lemma {:induction false} ResolveKeepsFreeze(s: State, input: ResolveInput, mayWrite: bool)
    requires Freeze(s.files.at, s.conflicts.at)
    ensures var s' := Resolve(s, input, mayWrite).0; Freeze(s'.files.at, s'.conflicts.at)
  {
    ResolveCases(s, input, mayWrite);
    var (s', r) := Resolve(s, input, mayWrite);
    hide Resolve, JoinedVV;
    if s' != s {
      var conflict := s.conflicts.at[input.conflictId];
      JoinedDominates(conflict, input);
      Settle(s.files.at, s.conflicts.at, input.conflictId, r.conflict, s'.files.at[conflict.fileId]);
    }
  }

  lemma {:induction false} ClaimsKeepFreeze(s: State, e: Event)
    requires Freeze(s.files.at, s.conflicts.at) && (e.ClaimConflict? || e.ReleaseConflict?)
    ensures var s' := OtherStep(s, e); Freeze(s'.files.at, s'.conflicts.at)
  {
    var s' := OtherStep(s, e);
    if s' != s {
      Reclaim(s.files.at, s.conflicts.at, e.conflictId, s'.conflicts.at[e.conflictId]);
    }
    hide Freeze;
  }

  lemma LeaseKeepsFreeze(s: State, fileId: string, until: Option<nat>)
    requires Freeze(s.files.at, s.conflicts.at)
    ensures Freeze(SetActive(s, fileId, until).files.at, s.conflicts.at)
  {
    if fileId in s.files.at {
      MarkedWrite(s.files.at, s.conflicts.at, s.files.at[fileId].(activeUntil := until));
    }
  }

  lemma {:induction false} StepKeepsFreeze(s: State, e: Event)
    requires Freeze(s.files.at, s.conflicts.at) && Enabled(s, e)
    ensures var s' := Step(s, e); Freeze(s'.files.at, s'.conflicts.at)
  {
    hide Freeze, Prepare, Admission, Record, Resolve, Claim, Release;
    if e.Submit? {
      ProcessCases(s, e.op, e.mayWrite, e.now, e.freshId);
      if Commits(s, e.op, e.mayWrite, e.now, e.freshId) {
        CommitKeepsFreeze(s, e.op, e.now, e.freshId);
      }
    } else if e.ResolveConflict? {
      ResolveKeepsFreeze(s, e.input, e.mayWrite);
    } else if e.ClaimConflict? || e.ReleaseConflict? {
      ClaimsKeepFreeze(s, e);
    } else if e.Lease? {
      LeaseKeepsFreeze(s, e.fileId, e.until);
    } else {
      assert OtherStep(s, e).files == s.files && OtherStep(s, e).conflicts == s.conflicts;
    }
  }

  lemma {:induction false} RunKeepsFreeze(s: State, events: seq<Event>)
    requires Freeze(s.files.at, s.conflicts.at) && ValidRun(s, events)
    ensures var s' := Run(s, events); Freeze(s'.files.at, s'.conflicts.at)
  {
    hide Step, Freeze;
    if |events| > 0 {
      RunKeepsFreeze(s, events[..|events| - 1]);
      StepKeepsFreeze(Run(s, events[..|events| - 1]), events[|events| - 1]);
    }
  }

  lemma ReachableFreeze(s: State)
    requires Reachable(s)
    ensures Freeze(s.files.at, s.conflicts.at)
  {
    hide Step;
    var events :| ValidRun(Initial, events) && s == Run(Initial, events);
    RunKeepsFreeze(Initial, events);
  }

  /** In every reachable state a file is marked with c exactly when c is its unresolved conflict,
      which is then its only one, and c's "ours" is the version the file holds. */
  lemma {:induction false} FrozenExactlyWhilePending(s: State, f: string, c: string)
    requires Reachable(s) && f in s.files.at
    ensures s.files.at[f].conflictId == Some(c) <==>
      c in s.conflicts.at && !s.conflicts.at[c].status.Resolved? && s.conflicts.at[c].fileId == f
    ensures s.files.at[f].conflictId == Some(c) ==>
      && s.conflicts.at[c].oursVV == s.files.at[f].contentVV
      && forall d ::
           d in s.conflicts.at && !s.conflicts.at[d].status.Resolved? && s.conflicts.at[d].fileId == f ==> d == c
  {
    ReachableFreeze(s);
    hide Reachable;
  }

  /** A resolution gives the file a version strictly above both sides of the conflict. */
  lemma {:induction false} ResolutionDominatesBothSides(s: State, input: ResolveInput, mayWrite: bool)
    requires Reachable(s) && Resolve(s, input, mayWrite).0 != s
    ensures var (s', r) := Resolve(s, input, mayWrite);
      && input.conflictId in s.conflicts.at && r.Done? && r.conflict.resolution.Some?
      && var conflict := s.conflicts.at[input.conflictId];
         && conflict.fileId in s'.files.at && conflict.fileId in s.files.at
         && var file := s'.files.at[conflict.fileId];
            && file.contentVV == r.conflict.resolution.value.vv && file.conflictId.None?
            && file.contentHash == Some(r.conflict.resolution.value.hash)
            && StrictlyDominates(file.contentVV, conflict.oursVV)
            && StrictlyDominates(file.contentVV, conflict.theirsVV)
            && StrictlyDominates(file.contentVV, s.files.at[conflict.fileId].contentVV)
  {
    ReachableFreeze(s);
    hide Reachable;
    ResolveCases(s, input, mayWrite);
    hide Resolve, JoinedVV;
    JoinedDominates(s.conflicts.at[input.conflictId], input);
  }

  lemma CollidedUpdate(s: State, op: FileOp, now: nat, freshId: string)
    requires Prepare(s, op, now, freshId).Success? && Prepare(s, op, now, freshId).value.conflictId.Some?
    requires Keyed(s.files.at)
    ensures Collides(s, op, Prepare(s, op, now, freshId).value, freshId)
    ensures IsConcurrent(op.newContentVV.GetOr(map[]), s.files.at[op.fileId].contentVV)
    ensures !PresentText(s.files.at[op.fileId].conflictId)
  {
    EffectCases(s, op, now, freshId);
    hide UniquePath, NormalizePath, Dominates, Join, CaseFold, Validate, CreateConflict, UpdatedRefs, SideRef;
  }

  /** An accepted operation that collides loses neither side: the file keeps its content and version,
      and a new open record holds both hashes and both, concurrent, versions. */
  lemma {:induction false} ConflictKeepsBothSides(s: State, op: FileOp, mayWrite: bool, now: nat, freshId: string)
    requires Reachable(s) && Commits(s, op, mayWrite, now, freshId) && freshId !in s.conflicts.at && freshId != ""
    requires Prepare(s, op, now, freshId).value.conflictId.Some?
    ensures op.fileId in s.files.at
    ensures var (file, s') := (s.files.at[op.fileId], Process(s, op, mayWrite, now, freshId).0);
      && s'.files.at == s.files.at[op.fileId := file.(conflictId := Some(freshId))]
      && s'.conflicts.at.Keys == s.conflicts.at.Keys + {freshId}
      && var c := s'.conflicts.at[freshId];
         && c.fileId == op.fileId && c.status.Open? && c.oursHash == file.contentHash
         && c.theirsHash == op.contentHash.OrElse(op.blobRef)
         && c.oursVV == file.contentVV && c.theirsVV == op.newContentVV.GetOr(map[])
         && IsConcurrent(c.theirsVV, c.oursVV)
  {
    ReachableFreeze(s);
    ProcessCases(s, op, mayWrite, now, freshId);
    CollidedUpdate(s, op, now, freshId);
    MarkPresent(s, op.fileId);
    hide Reachable, Process, Prepare, Admission, Record, StoredContent, IsConcurrent;
    FreshConflict(s, op, freshId);
    hide Freeze;
  }

  lemma MarkPresent(s: State, f: string)
    requires Freeze(s.files.at, s.conflicts.at) && f in s.files.at && !PresentText(s.files.at[f].conflictId)
    ensures s.files.at[f].conflictId.None?
  {
  }

  // ---- a resolution is final ----

  lemma {:induction false} StepKeepsResolved(s: State, e: Event, c: string)
    requires Freeze(s.files.at, s.conflicts.at) && Enabled(s, e) && c in s.conflicts.at
    requires s.conflicts.at[c].status.Resolved?
    ensures c in Step(s, e).conflicts.at && Step(s, e).conflicts.at[c] == s.conflicts.at[c]
  {
    hide Prepare, Admission, Record, Resolve, StoredContent, Process, PendingIsMarked, MarkIsPending, Settled, JoinedVV,
         CollectedBlobs;
    if e.Submit? {
      ProcessCases(s, e.op, e.mayWrite, e.now, e.freshId);
      if Commits(s, e.op, e.mayWrite, e.now, e.freshId) {
        EffectCases(s, e.op, e.now, e.freshId);
      }
    } else if e.ResolveConflict? {
      ResolveCases(s, e.input, e.mayWrite);
    }
  }

  lemma {:induction false} RunKeepsResolved(s: State, events: seq<Event>, c: string)
    requires Freeze(s.files.at, s.conflicts.at) && ValidRun(s, events) && c in s.conflicts.at
    requires s.conflicts.at[c].status.Resolved?
    ensures var s' := Run(s, events); c in s'.conflicts.at && s'.conflicts.at[c] == s.conflicts.at[c]
  {
    hide Step, Freeze;
    if |events| > 0 {
      RunKeepsFreeze(s, events[..|events| - 1]);
      RunKeepsResolved(s, events[..|events| - 1], c);
      StepKeepsResolved(Run(s, events[..|events| - 1]), events[|events| - 1], c);
    }
  }

  /** After a conflict is resolved its record never changes again: in every continuation a claim or
      release of it fails, and a further resolution answers with the record and changes nothing. */
  lemma {:induction false} ResolutionIsFinal(s: State, events: seq<Event>, c: string, input: ResolveInput,
          deviceId: string)
    requires Reachable(s) && c in s.conflicts.at && s.conflicts.at[c].status.Resolved?
    requires ValidRun(s, events) && input.conflictId == c
    ensures var s' := Run(s, events);
      && Resolve(s', input, true) == (s', Done(s.conflicts.at[c]))
      && Claim(s', deviceId, true, c) == (s', Failed(CONFLICT_ALREADY_RESOLVED))
      && Release(s', deviceId, true, c) == (s', Failed(CONFLICT_ALREADY_RESOLVED))
  {
    ReachableFreeze(s);
    hide Reachable, Step, Freeze;
    RunKeepsResolved(s, events, c);
  }
}
