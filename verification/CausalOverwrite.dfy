/** Content versions over runs: stored version vectors only grow, and an update that overwrites has
    seen every earlier edit of the other devices. */
module CausalOverwrite {
  import opened Options
  import opened VersionVectors
  import opened Vault
  import opened VaultRuns
  import opened ConflictFreeze

  /** The event does not start a new history of file f: it is no accepted restore and no accepted create
      over a deleted f. */
  predicate Continues(s: State, e: Event, f: string) {
    e.Submit? && Commits(s, e.op, e.mayWrite, e.now, e.freshId) && e.op.fileId == f && f in s.files.at ==>
      !e.op.kind.Restore? && (e.op.kind.Create? ==> !s.files.at[f].deleted)
  }

  ghost predicate ContinuesAll(s: State, events: seq<Event>, f: string) {
    |events| > 0 ==>
      ContinuesAll(s, events[..|events| - 1], f) && Continues(Run(s, events[..|events| - 1]), events[|events| - 1], f)
  }

  lemma DominatesItself(vv: VersionVector)
    ensures Dominates(vv, vv)
  {
  }

  lemma PreparedVersion(s: State, op: FileOp, now: nat, freshId: string)
    requires Prepare(s, op, now, freshId).Success? && op.fileId in s.files.at
    requires !op.kind.Restore? && (op.kind.Create? ==> !s.files.at[op.fileId].deleted)
    ensures Dominates(Prepare(s, op, now, freshId).value.file.contentVV, s.files.at[op.fileId].contentVV)
  {
    DominatesItself(s.files.at[op.fileId].contentVV);
    hide Dominates, IsConcurrent, UniquePath, Validate, CreateConflict, UpdatedRefs, SideRef, ApplyRestore;
  }

  lemma {:induction false} StepGrows(s: State, e: Event, f: string)
    requires Freeze(s.files.at, s.conflicts.at) && f in s.files.at && Continues(s, e, f)
    ensures f in Step(s, e).files.at && Dominates(Step(s, e).files.at[f].contentVV, s.files.at[f].contentVV)
  {
    DominatesItself(s.files.at[f].contentVV);
    hide Dominates, Prepare, Admission, Record, StoredContent, Resolve;
    if e.Submit? {
      ProcessCases(s, e.op, e.mayWrite, e.now, e.freshId);
      if e.op.fileId == f && Commits(s, e.op, e.mayWrite, e.now, e.freshId) {
        PreparedVersion(s, e.op, e.now, e.freshId);
      }
    } else if e.ResolveConflict? {
      ResolveGrows(s, e.input, e.mayWrite, f);
    }
  }

  lemma ResolveGrows(s: State, input: ResolveInput, mayWrite: bool, f: string)
    requires Freeze(s.files.at, s.conflicts.at) && f in s.files.at
    ensures f in Resolve(s, input, mayWrite).0.files.at
    ensures Dominates(Resolve(s, input, mayWrite).0.files.at[f].contentVV, s.files.at[f].contentVV)
  {
    DominatesItself(s.files.at[f].contentVV);
    ResolveCases(s, input, mayWrite);
    hide Resolve, JoinedVV, Dominates;
    if input.conflictId in s.conflicts.at {
      JoinedDominates(s.conflicts.at[input.conflictId], input);
    }
  }

  lemma {:induction false} RunGrows(s: State, events: seq<Event>, f: string)
    requires Freeze(s.files.at, s.conflicts.at) && f in s.files.at && ValidRun(s, events) && ContinuesAll(s, events, f)
    ensures f in Run(s, events).files.at && Dominates(Run(s, events).files.at[f].contentVV, s.files.at[f].contentVV)
  {
    DominatesItself(s.files.at[f].contentVV);
    hide Step, Freeze, Dominates, Continues;
    if |events| > 0 {
      var before := events[..|events| - 1];
      RunGrows(s, before, f);
      RunKeepsFreeze(s, before);
      StepGrows(Run(s, before), events[|events| - 1], f);
      DominatesTransitive(Run(s, events).files.at[f].contentVV, Run(s, before).files.at[f].contentVV,
                          s.files.at[f].contentVV);
    }
  }

  /** From any reachable state on, as long as the history of a file continues, every later version
      dominates it. */
  lemma {:induction false} VersionsOnlyGrow(s: State, events: seq<Event>, f: string)
    requires Reachable(s) && f in s.files.at && ValidRun(s, events) && ContinuesAll(s, events, f)
    ensures f in Run(s, events).files.at && Dominates(Run(s, events).files.at[f].contentVV, s.files.at[f].contentVV)
  {
    ReachableFreeze(s);
    hide Reachable, Freeze, Run, ValidRun, ContinuesAll;
    RunGrows(s, events, f);
  }

  lemma OverwriteDominates(s: State, op: FileOp, now: nat, freshId: string)
    requires Prepare(s, op, now, freshId).Success? && Prepare(s, op, now, freshId).value.conflictId.None?
    requires op.kind.Update? && op.fileId in s.files.at && op.newContentVV.Some?
    ensures Dominates(op.newContentVV.value, s.files.at[op.fileId].contentVV)
    ensures Prepare(s, op, now, freshId).value.file.contentVV == op.newContentVV.value
  {
    hide Dominates, IsConcurrent, UniquePath, Validate, CreateConflict, UpdatedRefs, SideRef, ApplyRestore;
  }

  /** An update by device d built on a base and accepted without conflict at the end of a run had
      seen every version the file held during the run: no other device's counter is above the base. */
  lemma {:induction false} AcceptedUpdateHasSeenOthers(s: State, events: seq<Event>, op: FileOp, mayWrite: bool,
          now: nat, freshId: string, base: VersionVector, other: string)
    requires Reachable(s) && op.fileId in s.files.at && ValidRun(s, events) && ContinuesAll(s, events, op.fileId)
    requires op.kind.Update? && op.newContentVV == Some(Bump(base, op.deviceId)) && other != op.deviceId
    requires Commits(Run(s, events), op, mayWrite, now, freshId)
    requires Prepare(Run(s, events), op, now, freshId).value.conflictId.None?
    ensures CounterFor(s.files.at[op.fileId].contentVV, other) <= CounterFor(base, other)
    ensures CounterFor(s.files.at[op.fileId].contentVV, op.deviceId) <= CounterFor(base, op.deviceId) + 1
  {
    VersionsOnlyGrow(s, events, op.fileId);
    hide Reachable, Run, ValidRun, ContinuesAll;
    OverwriteDominates(Run(s, events), op, now, freshId);
    hide Prepare, Admission;
    var stored := s.files.at[op.fileId].contentVV;
    DominatesTransitive(Bump(base, op.deviceId), Run(s, events).files.at[op.fileId].contentVV, stored);
    DominatesPointwise(Bump(base, op.deviceId), stored);
    hide Dominates;
    assert CounterFor(Bump(base, op.deviceId), other) >= CounterFor(stored, other);
    assert CounterFor(Bump(base, op.deviceId), op.deviceId) >= CounterFor(stored, op.deviceId);
  }
}
