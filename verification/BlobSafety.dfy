/** Blobs over all runs of uploads, operations, resolutions and garbage collection: each blob in use
    is referenced and verified, and so never collected, exactly if every accepted content operation
    finds the blob it names verified, which naming a content hash beside it ensures. */
module BlobSafety {
  import opened Options
  import opened OrderedMaps
  import opened Paths
  import opened Vault
  import opened VaultRuns
  import opened BlobReferences
  import opened SmallRuns

  /** An accepted content operation that names a blob finds it verified. */
  ghost predicate NamesVerified(s: State, e: Event) {
    e.Submit? && Commits(s, e.op, e.mayWrite, e.now, e.freshId) && ContentKind(e.op.kind) && Present(e.op.blobRef) ==>
      IsVerified(s.blobs.at, e.op.blobRef.value)
  }

  lemma {:induction false} ProcessKeepsSafe(s: State, e: Event)
    requires BlobSafe(s) && Enabled(s, e) && e.Submit?
    ensures BlobSafe(Step(s, e)) <==> NamesVerified(s, e)
  {
    ProcessCases(s, e.op, e.mayWrite, e.now, e.freshId);
    hide Process, Prepare, RefsVerified, Admission, Record, StoredContent, IsVerified;
    if Commits(s, e.op, e.mayWrite, e.now, e.freshId) {
      CommitKeepsHeld(s, e.op, e.now, e.freshId);
      CommitVerified(s, e.op, e.now, e.freshId);
      hide BlobsHeld;
    }
  }

  lemma {:induction false} StepKeepsSafe(s: State, e: Event)
    requires BlobSafe(s) && Enabled(s, e)
    ensures BlobSafe(Step(s, e)) <==> NamesVerified(s, e)
  {
    hide Process, Resolve, Claim, Release, InitUpload, CompleteUpload, CollectedBlobs, RefsVerified, SetActive, Commits;
    if e.Submit? {
      ProcessKeepsSafe(s, e);
    } else if e.ResolveConflict? {
      ResolveKeepsHeld(s, e.input, e.mayWrite);
    } else if e.ClaimConflict? || e.ReleaseConflict? {
      ClaimsKeepHeld(s, e);
    } else if e.Lease? {
      LeaseKeepsHeld(s, e.fileId, e.until);
    } else {
      BlobEventsKeepRest(s, e);
      if !e.Register? && !e.Revoke? { BlobEventsKeepVerified(s, e); }
    }
    hide BlobsHeld;
  }

  /** A file or a side of a pending conflict needs the blob. */
  ghost predicate InUse(s: State, hash: Hash) {
    || (exists f :: f in s.files.at && Present(s.files.at[f].blobRef) && s.files.at[f].blobRef == Some(hash))
    || (exists i, c :: 0 <= i < |s.journal.log| && OpenedWithBlob(s.journal.log[i], c)
          && s.journal.log[i].payload.blobRef == Some(hash)
          && c in s.conflicts.at && !s.conflicts.at[c].status.Resolved?)
  }

  lemma InUseIsVerified(s: State, hash: Hash)
    requires BlobSafe(s) && InUse(s, hash)
    ensures Referenced(s.refs, hash) && IsVerified(s.blobs.at, hash)
  {
    if f :| f in s.files.at && Present(s.files.at[f].blobRef) && s.files.at[f].blobRef == Some(hash) {
      assert FileLive(hash, f) in s.refs && FileLive(hash, f).hash == hash;
    } else {
      var i, c :| 0 <= i < |s.journal.log| && OpenedWithBlob(s.journal.log[i], c)
          && s.journal.log[i].payload.blobRef == Some(hash)
          && c in s.conflicts.at && !s.conflicts.at[c].status.Resolved?;
      assert ConflictSide(hash, c, Theirs) in s.refs && ConflictSide(hash, c, Theirs).hash == hash;
    }
  }

  /** The blob an accepted content operation names is in use afterwards. */
  lemma {:induction false} NamedIsInUse(s: State, e: Event)
    requires BlobSafe(s) && Enabled(s, e) && e.Submit? && Commits(s, e.op, e.mayWrite, e.now, e.freshId)
    requires ContentKind(e.op.kind) && Present(e.op.blobRef)
    ensures InUse(Step(s, e), e.op.blobRef.value)
  {
    HeldKeyed(s);
    EffectCases(s, e.op, e.now, e.freshId);
    ProcessCases(s, e.op, e.mayWrite, e.now, e.freshId);
    var effect, s' := Prepare(s, e.op, e.now, e.freshId).value, Step(s, e);
    hide BlobsHeld, RefsVerified;
    if Overwrites(s, e.op, effect) {
      LiveHeldOf(s);
      OverwriteRefs(s, e.op, e.now, e.freshId);
      hide Prepare, Process, Record, StoredContent;
      assert e.op.fileId in s'.files.at && s'.files.at[e.op.fileId] == effect.file;
    } else {
      hide Prepare, Process, StoredContent;
      EntryIsLogged(s.journal.log, EntryOf(s.journal, e.op, effect));
      OpenedIsUnresolved(s.conflicts, ConflictOf(e.op, s.files.at[e.op.fileId]), e.freshId);
      var i :| 0 <= i < |s'.journal.log| && s'.journal.log[i] == EntryOf(s.journal, e.op, effect);
      assert OpenedWithBlob(s'.journal.log[i], effect.conflictId.value);
    }
  }

  lemma LiveHeldOf(s: State)
    requires BlobsHeld(s)
    ensures LiveHeld(s.files.at, s.refs)
  {
  }

  lemma {:induction false} EntryIsLogged(log: seq<StoredOp>, entry: StoredOp)
    ensures entry in InsertBySeq(log, entry)
  {
    if |log| > 0 && log[|log| - 1].vaultSeq > entry.vaultSeq {
      EntryIsLogged(log[..|log| - 1], entry);
    }
  }

  lemma OpenedIsUnresolved(conflicts: OrderedMap<string, ConflictRecord>, input: ConflictRecord, freshId: string)
    requires !input.status.Resolved?
    ensures var (conflicts', c) := CreateConflict(conflicts, input, freshId);
      c in conflicts'.at && !conflicts'.at[c].status.Resolved?
  {
  }

  // ---- runs ----

  ghost predicate NamesVerifiedRun(s: State, events: seq<Event>) {
    |events| > 0 ==>
      NamesVerifiedRun(s, events[..|events| - 1]) && NamesVerified(Run(s, events[..|events| - 1]), events[|events| - 1])
  }

  /** Every blob in use is referenced and verified. */
  ghost predicate UsedVerified(s: State) {
    forall hash :: InUse(s, hash) ==> Referenced(s.refs, hash) && IsVerified(s.blobs.at, hash)
  }

  ghost predicate UsedThroughout(s: State, events: seq<Event>) {
    (|events| > 0 ==> UsedThroughout(s, events[..|events| - 1])) && UsedVerified(Run(s, events))
  }

  /** Every blob in use is referenced and verified throughout a run exactly if each accepted content
      operation that names a blob finds it verified. */
  lemma {:induction false} BlobsStayVerified(events: seq<Event>)
    requires ValidRun(Initial, events)
    ensures UsedThroughout(Initial, events) <==> NamesVerifiedRun(Initial, events)
    ensures NamesVerifiedRun(Initial, events) ==> BlobSafe(Run(Initial, events))
  {
    assert BlobSafe(Initial);
    SafeIsUsed(Run(Initial, events));
    hide Step, BlobSafe, UsedVerified, Enabled, NamesVerified;
    if |events| > 0 {
      var e, before := events[|events| - 1], Run(Initial, events[..|events| - 1]);
      BlobsStayVerified(events[..|events| - 1]);
      assert Run(Initial, events) == Step(before, e);
      if NamesVerifiedRun(Initial, events[..|events| - 1]) {
        StepKeepsSafe(before, e);
        if UsedVerified(Step(before, e)) { UsedNamesVerified(before, e); }
      }
    }
  }

  lemma SafeIsUsed(s: State)
    ensures BlobSafe(s) ==> UsedVerified(s)
  {
    hide BlobSafe, InUse, Referenced, IsVerified;
    forall hash | BlobSafe(s) && InUse(s, hash) ensures Referenced(s.refs, hash) && IsVerified(s.blobs.at, hash) {
      InUseIsVerified(s, hash);
    }
  }

  lemma UsedNamesVerified(s: State, e: Event)
    requires BlobSafe(s) && Enabled(s, e)
    requires UsedVerified(Step(s, e))
    ensures NamesVerified(s, e)
  {
    if e.Submit? && Commits(s, e.op, e.mayWrite, e.now, e.freshId) && ContentKind(e.op.kind) && Present(e.op.blobRef) {
      NamedIsInUse(s, e);
      ProcessCases(s, e.op, e.mayWrite, e.now, e.freshId);
      hide InUse, Prepare, Process, Record, IsVerified, StoredContent;
    }
  }

  /** A content operation that names a blob also names a content hash. */
  predicate Hashed(op: FileOp) {
    ContentKind(op.kind) && Present(op.blobRef) ==> Present(op.contentHash)
  }

  ghost predicate HashedRun(events: seq<Event>) {
    forall k :: 0 <= k < |events| && events[k].Submit? ==> Hashed(events[k].op)
  }

  /** Naming a content hash beside the blob is enough. */
  lemma {:induction false} HashedNamesVerified(events: seq<Event>)
    requires HashedRun(events)
    ensures NamesVerifiedRun(Initial, events)
  {
    hide Step, IsVerified, Prepare;
    if |events| > 0 {
      HashedNamesVerified(events[..|events| - 1]);
      var e, s := events[|events| - 1], Run(Initial, events[..|events| - 1]);
      if e.Submit? && Commits(s, e.op, e.mayWrite, e.now, e.freshId) && ContentKind(e.op.kind)
         && Present(e.op.blobRef)
      {
        ValidatedBlob(s, e.op, e.now, e.freshId);
      }
    }
  }

  /** In every run whose content operations name a hash beside any blob: every blob in use is
      referenced and verified, in particular not collected, and it stays so when garbage is
      collected once more. */
  lemma {:induction false} BlobsInUseSurvive(events: seq<Event>, hash: Hash, minAge: nat, now: nat)
    requires ValidRun(Initial, events) && HashedRun(events)
    ensures var s := Run(Initial, events);
      InUse(s, hash) ==>
        && Referenced(s.refs, hash) && hash in s.blobs.at && s.blobs.at[hash].state.Verified?
        && GcUnreferenced(s, minAge, now).blobs.at[hash] == s.blobs.at[hash]
  {
    BlobsStayVerified(events);
    HashedNamesVerified(events);
    hide Step, Run;
    if InUse(Run(Initial, events), hash) { InUseIsVerified(Run(Initial, events), hash); }
    hide BlobSafe, InUse;
  }

  // ---- without the hash ----

  /** A create that names a blob and no content hash. */
  const UNHASHED := FileOp(Uuid("u"), "d", 1, "f", Create, Note, None, None, None, None, false, None, Some(Digest("x")),
                           Some("a"), None)

  /** The claim needs its condition: one registered device can leave a live file whose blob was
      never uploaded, because an operation without a content hash skips the blob check. */
  lemma UnhashedBlobIsNotSafe()
    ensures var events := [Register("d"), Submit(UNHASHED, true, 0, "c")];
      && ValidRun(Initial, events) && !HashedRun(events)
      && InUse(Run(Initial, events), Digest("x")) && Digest("x") !in Run(Initial, events).blobs.at
  {
    var events := [Register("d"), Submit(UNHASHED, true, 0, "c")];
    var s := Step(Initial, events[0]);
    assert events[..1] == [events[0]] && [events[0]][..0] == [];
    assert Run(Initial, []) == Initial && Run(Initial, [events[0]]) == s && Run(Initial, events) == Step(s, events[1]);
    assert ValidRun(Initial, []) && ValidRun(Initial, [events[0]]);
    assert events[1].Submit? && !Hashed(events[1].op);
    UnhashedCommits(s);
  }

  lemma UnhashedCommits(s: State)
    requires s == Step(Initial, Register("d"))
    ensures var s' := Step(s, Submit(UNHASHED, true, 0, "c"));
      && InUse(s', Digest("x")) && s'.blobs == s.blobs
  {
    var op := UNHASHED;
    PlainPath();
    hide NormalizePath, CaseFold;
    assert CollabDevice("f") != "d" by { assert |CollabDevice("f")| == 8 && |"d"| == 1; }
    assert Validate(s, op).None?;
    assert !Taken(s.files, "a", "f") && UniquePath(s.files, "a", "f") == Some("a");
    var s' := Process(s, op, true, 0, "c").0;
    assert "f" in s'.files.at && s'.files.at["f"].blobRef == Some(Digest("x"));
  }
}
