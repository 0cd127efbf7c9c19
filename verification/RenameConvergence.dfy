/** Renames of one file converge: whatever the order in which the server processes them, the path
    clock ends at the greatest one, and so does the path when the wanted paths are free. */
module RenameConvergence {
  import opened PathClocks
  import opened Paths
  import opened Vault
  import opened VaultRuns
  import opened PathAllocation

  /** Every event is a rename of f that is accepted when its turn comes. */
  ghost predicate Renames(s: State, events: seq<Event>, f: string) {
    |events| > 0 ==>
      var e := events[|events| - 1];
      && Renames(s, events[..|events| - 1], f)
      && e.Submit? && e.op.kind.Rename? && e.op.fileId == f
      && Commits(Run(s, events[..|events| - 1]), e.op, e.mayWrite, e.now, e.freshId)
  }

  ghost function Clock(e: Event): PathClock {
    if e.Submit? then e.op.pathClock.GetOr(PathClock(0, "")) else PathClock(0, "")
  }

  ghost function Wanted(e: Event): string {
    if e.Submit? then NormalizePath(e.op.newPath.GetOr("")).GetOr("") else ""
  }

  /** The wanted paths are not taken by other live files. */
  ghost predicate AllFree(s: State, events: seq<Event>, f: string) {
    forall k :: 0 <= k < |events| ==> !Occupied(s.files.at, Wanted(events[k]), f)
  }

  /** Only file f may differ. */
  ghost predicate OthersSame(s: State, s': State, f: string) {
    f in s.files.at && f in s'.files.at && s'.files.at == s.files.at[f := s'.files.at[f]] && Keyed(s'.files.at)
  }

  lemma OccupiedByOthers(s: State, s': State, path: string, f: string)
    requires OthersSame(s, s', f)
    ensures Occupied(s'.files.at, path, f) ==> Occupied(s.files.at, path, f)
  {
    hide CaseFold;
  }

  lemma ValidatedPath(op: FileOp)
    requires ValidateShape(op).None? && op.kind.Rename?
    ensures op.newPath.Some? && NormalizePath(op.newPath.value).Some?
  {
  }

  lemma PreparedRename(s: State, op: FileOp, now: nat, freshId: string)
    requires op.kind.Rename? && Prepare(s, op, now, freshId).Success?
    ensures op.fileId in s.files.at && ValidateShape(op).None?
    ensures Prepare(s, op, now, freshId) == ApplyRename(s, op, s.files.at[op.fileId])
  {
    hide ValidateShape, ValidateHash, ValidateBlob, ApplyRename, ApplyCreate, ApplyUpdate, ApplyRestore;
  }

  lemma AppliedRename(s: State, op: FileOp)
    requires Keyed(s.files.at) && op.kind.Rename? && op.fileId in s.files.at && ValidateShape(op).None?
    requires ApplyRename(s, op, s.files.at[op.fileId]).Success?
    ensures var file, file' := s.files.at[op.fileId], ApplyRename(s, op, s.files.at[op.fileId]).value.file;
      && op.pathClock.Some? && op.newPath.Some? && NormalizePath(op.newPath.value).Some? && file'.fileId == op.fileId
      && if PathClockWins(op.pathClock.value, file.pathClock)
         then file'.pathClock == op.pathClock.value
              && (!Occupied(s.files.at, NormalizePath(op.newPath.value).value, op.fileId) ==>
                    file'.path == NormalizePath(op.newPath.value).value)
         else file' == file
  {
    ValidatedPath(op);
    hide ValidateShape, UniquePath, NormalizePath, PathClockWins, Occupied, CaseFold;
    var wanted := NormalizePath(op.newPath.value).value;
    if !Occupied(s.files.at, wanted, op.fileId) {
      FreePathIsKept(s.files, wanted, op.fileId);
    }
  }

  /** One rename: the winner's clock and, if its path is free, its path are taken. */
  ghost predicate Renamed(s: State, s': State, e: Event, f: string) {
    f in s.files.at && f in s'.files.at &&
    var file, file' := s.files.at[f], s'.files.at[f];
    if PathClockWins(Clock(e), file.pathClock)
    then file'.pathClock == Clock(e) && (!Occupied(s.files.at, Wanted(e), f) ==> file'.path == Wanted(e))
    else file' == file
  }

  lemma {:induction false} OneRename(s: State, e: Event, f: string)
    requires Keyed(s.files.at) && e.Submit? && e.op.kind.Rename? && e.op.fileId == f
    requires Commits(s, e.op, e.mayWrite, e.now, e.freshId)
    ensures OthersSame(s, Step(s, e), f) && Renamed(s, Step(s, e), e, f)
  {
    PreparedRename(s, e.op, e.now, e.freshId);
    AppliedRename(s, e.op);
    hide Prepare, ApplyRename, Admission, Record, StoredContent, PathClockWins, Occupied, NormalizePath, ValidateShape;
  }

  /** The k-th rename is the one that settled the file. */
  ghost predicate SettledBy(s: State, last: StoredFile, events: seq<Event>, f: string, k: nat)
    requires f in s.files.at
  {
    && k < |events| && last.pathClock == Clock(events[k]) && PathClockWins(last.pathClock, s.files.at[f].pathClock)
    && (AllFree(s, events, f) ==> last.path == Wanted(events[k]))
  }

  ghost predicate NoneBeats(events: seq<Event>, clock: PathClock) {
    forall k :: 0 <= k < |events| ==> !PathClockWins(Clock(events[k]), clock)
  }

  /** The final clock is the greatest of the initial one and the renames', and with free paths the
      final path is the one that clock came with. */
  ghost predicate Final(s: State, last: StoredFile, events: seq<Event>, f: string)
    requires f in s.files.at
  {
    && !PathClockWins(s.files.at[f].pathClock, last.pathClock) && NoneBeats(events, last.pathClock)
    && ((last.pathClock == s.files.at[f].pathClock && last.path == s.files.at[f].path)
          || exists k: nat :: SettledBy(s, last, events, f, k))
  }

  lemma {:induction false} RunSettles(s: State, events: seq<Event>, f: string)
    requires Keyed(s.files.at) && f in s.files.at && Renames(s, events, f)
    ensures OthersSame(s, Run(s, events), f) && Final(s, Run(s, events).files.at[f], events, f)
  {
    hide Step, Commits, Clock, Wanted, Occupied, Renamed;
    if |events| == 0 {
      WinsIsStrictTotalOrder(s.files.at[f].pathClock, s.files.at[f].pathClock, s.files.at[f].pathClock);
    } else {
      var before := events[..|events| - 1];
      RunSettles(s, before, f);
      hide Final;
      OneRename(Run(s, before), events[|events| - 1], f);
      OccupiedByOthers(s, Run(s, before), Wanted(events[|events| - 1]), f);
      FinalMore(s, Run(s, before), Run(s, events), before, events[|events| - 1], f);
      assert before + [events[|events| - 1]] == events;
    }
  }

  lemma AllFreeMore(s: State, before: seq<Event>, e: Event, f: string)
    requires AllFree(s, before + [e], f)
    ensures AllFree(s, before, f) && !Occupied(s.files.at, Wanted(e), f)
  {
    hide Wanted, Occupied;
    assert (before + [e])[|before|] == e;
    forall k | 0 <= k < |before| ensures !Occupied(s.files.at, Wanted(before[k]), f) {
      assert (before + [e])[k] == before[k];
    }
  }

  lemma NoneBeatsMore(before: seq<Event>, e: Event, middle: PathClock, last: PathClock)
    requires NoneBeats(before, middle) && (last == middle || PathClockWins(last, middle))
    requires !PathClockWins(Clock(e), last)
    ensures NoneBeats(before + [e], last)
  {
    hide Clock, PathClockWins;
    forall k | 0 <= k < |before| ensures !PathClockWins(Clock(before[k]), last) {
      WinsIsStrictTotalOrder(Clock(before[k]), last, middle);
    }
  }

  lemma FinalMore(s: State, mid: State, s': State, before: seq<Event>, e: Event, f: string)
    requires f in s.files.at && f in mid.files.at && f in s'.files.at && Final(s, mid.files.at[f], before, f)
    requires Renamed(mid, s', e, f)
    requires !Occupied(s.files.at, Wanted(e), f) ==> !Occupied(mid.files.at, Wanted(e), f)
    ensures Final(s, s'.files.at[f], before + [e], f)
  {
    hide Clock, Wanted, Occupied, PathClockWins, AllFree;
    var first, middle, last := s.files.at[f], mid.files.at[f], s'.files.at[f];
    if AllFree(s, before + [e], f) { AllFreeMore(s, before, e, f); }
    WinsIsStrictTotalOrder(last.pathClock, middle.pathClock, first.pathClock);
    WinsIsStrictTotalOrder(first.pathClock, last.pathClock, middle.pathClock);
    if PathClockWins(Clock(e), middle.pathClock) {
      WinsIsStrictTotalOrder(last.pathClock, first.pathClock, middle.pathClock);
      WinsIsStrictTotalOrder(middle.pathClock, first.pathClock, middle.pathClock);
      NoneBeatsMore(before, e, middle.pathClock, last.pathClock);
      hide NoneBeats;
      assert SettledBy(s, last, before + [e], f, |before|);
    } else {
      NoneBeatsMore(before, e, middle.pathClock, last.pathClock);
      hide NoneBeats;
      if !(last.pathClock == first.pathClock && last.path == first.path) {
        var k: nat :| SettledBy(s, middle, before, f, k);
        assert (before + [e])[k] == before[k];
        assert SettledBy(s, last, before + [e], f, k);
      }
    }
  }

  // ---- two orders ----

  ghost predicate SameWish(x: Event, y: Event) {
    Clock(x) == Clock(y) && Wanted(x) == Wanted(y)
  }

  /** Every wish among xs is also among ys. */
  ghost predicate Covered(xs: seq<Event>, ys: seq<Event>) {
    forall k :: 0 <= k < |xs| ==> exists l :: 0 <= l < |ys| && SameWish(xs[k], ys[l])
  }

  ghost predicate DistinctClocks(xs: seq<Event>) {
    forall k, l :: 0 <= k < l < |xs| ==> Clock(xs[k]) != Clock(xs[l])
  }

  lemma NotBeaten(s: State, a: StoredFile, b: StoredFile, xs: seq<Event>, ys: seq<Event>, f: string)
    requires f in s.files.at && Final(s, a, xs, f) && Final(s, b, ys, f) && Covered(xs, ys)
    ensures !PathClockWins(a.pathClock, b.pathClock)
  {
    hide Clock, Wanted, PathClockWins, AllFree;
    if a.pathClock != s.files.at[f].pathClock {
      var k: nat :| SettledBy(s, a, xs, f, k);
      var l :| 0 <= l < |ys| && SameWish(xs[k], ys[l]);
    }
  }

  lemma {:induction false} SamePath(s: State, a: StoredFile, b: StoredFile, xs: seq<Event>, ys: seq<Event>, f: string)
    requires f in s.files.at && Final(s, a, xs, f) && Final(s, b, ys, f) && Covered(xs, ys) && Covered(ys, xs)
    requires a.pathClock == b.pathClock && DistinctClocks(xs) && AllFree(s, xs, f)
    ensures a.path == b.path
  {
    hide Clock, Wanted, PathClockWins, Occupied, NoneBeats;
    assert AllFree(s, ys, f);
    hide AllFree;
    WinsIsStrictTotalOrder(a.pathClock, s.files.at[f].pathClock, a.pathClock);
    if a.pathClock != s.files.at[f].pathClock {
      var k: nat :| SettledBy(s, a, xs, f, k);
      var l: nat :| SettledBy(s, b, ys, f, l);
      var m :| 0 <= m < |xs| && SameWish(ys[l], xs[m]);
      assert m == k;
    }
  }

  /** Two runs of renames of f that bring the same wishes with pairwise distinct clocks, in whatever
      order, end with the same path clock, and with the same path if the wanted paths are free. */
  lemma {:induction false} RenamesConverge(s: State, xs: seq<Event>, ys: seq<Event>, f: string)
    requires Keyed(s.files.at) && f in s.files.at && Renames(s, xs, f) && Renames(s, ys, f)
    requires Covered(xs, ys) && Covered(ys, xs) && DistinctClocks(xs)
    ensures f in Run(s, xs).files.at && f in Run(s, ys).files.at
    ensures Run(s, xs).files.at[f].pathClock == Run(s, ys).files.at[f].pathClock
    ensures AllFree(s, xs, f) ==> Run(s, xs).files.at[f].path == Run(s, ys).files.at[f].path
  {
    RunSettles(s, xs, f);
    RunSettles(s, ys, f);
    hide Run, Renames, Final, Covered, DistinctClocks, PathClockWins, AllFree;
    var a, b := Run(s, xs).files.at[f], Run(s, ys).files.at[f];
    NotBeaten(s, a, b, xs, ys, f);
    NotBeaten(s, b, a, ys, xs, f);
    WinsIsStrictTotalOrder(a.pathClock, b.pathClock, a.pathClock);
    if AllFree(s, xs, f) { SamePath(s, a, b, xs, ys, f); }
  }
}
