/** Claiming and resolving conflicts: a claim locks out every other device until it is given up or used,
    and a resolution leaves the chosen content behind in a form that stays readable. */
module Resolutions {
  import opened Basics
  import opened Options
  import opened VersionVectors
  import opened Paths
  import opened Vault
  import opened VaultRuns
  import opened ConflictFreeze
  import opened ContentTable

  // ---- the claim ----

  lemma ClaimDecides(s: State, d: string, mayWrite: bool, c: string)
    ensures var (s', r) := Claim(s, d, mayWrite, c);
      && (c !in s.conflicts.at ==> s' == s && r == Failed(NOT_FOUND))
      && (c in s.conflicts.at ==>
            var record := s.conflicts.at[c];
            var other := record.claimedBy.Some? && record.claimedBy != Some("") && record.claimedBy != Some(d);
            && (!mayWrite ==> s' == s && r == Failed(FORBIDDEN))
            && (mayWrite && record.status.Resolved? ==> s' == s && r == Failed(CONFLICT_ALREADY_RESOLVED))
            && (mayWrite && record.status.Claimed? && other ==> s' == s && r == Failed(FORBIDDEN))
            && (mayWrite && !record.status.Resolved? && !(record.status.Claimed? && other) ==>
                  && r == Done(record.(status := Claimed, claimedBy := Some(d)))
                  && s' == s.(conflicts := s'.conflicts) && s'.conflicts.at == s.conflicts.at[c := r.conflict]))
  {
  }

  lemma ReleaseDecides(s: State, d: string, mayWrite: bool, c: string)
    ensures var (s', r) := Release(s, d, mayWrite, c);
      && (c !in s.conflicts.at ==> s' == s && r == Failed(NOT_FOUND))
      && (c in s.conflicts.at ==>
            var record := s.conflicts.at[c];
            && (!mayWrite ==> s' == s && r == Failed(FORBIDDEN))
            && (mayWrite && record.status.Resolved? ==> s' == s && r == Failed(CONFLICT_ALREADY_RESOLVED))
            && (mayWrite && !record.status.Resolved? && record.claimedBy != Some(d) ==>
                  s' == s && r == Failed(CONFLICT_NOT_CLAIMED))
            && (mayWrite && !record.status.Resolved? && record.claimedBy == Some(d) ==>
                  && r == Done(record.(status := Open, claimedBy := None))
                  && s' == s.(conflicts := s'.conflicts) && s'.conflicts.at == s.conflicts.at[c := r.conflict]))
  {
  }

  ghost predicate ClaimedBy(s: State, c: string, d: string) {
    c in s.conflicts.at && s.conflicts.at[c].status.Claimed? && s.conflicts.at[c].claimedBy == Some(d)
  }

  /** The device itself gives the claim up or resolves the conflict. */
  predicate EndsClaim(e: Event, c: string, d: string) {
    || (e.ReleaseConflict? && e.conflictId == c && e.deviceId == d)
    || (e.ResolveConflict? && e.input.conflictId == c && e.input.deviceId == d)
  }

  lemma {:induction false} StepKeepsClaim(s: State, e: Event, c: string, d: string)
    requires Freeze(s.files.at, s.conflicts.at) && Enabled(s, e) && ClaimedBy(s, c, d) && d != "" && !EndsClaim(e, c, d)
    ensures ClaimedBy(Step(s, e), c, d)
  {
    hide Prepare, Admission, Record, Resolve, StoredContent, Process, PendingIsMarked, MarkIsPending, Settled, JoinedVV,
         CollectedBlobs;
    if e.Submit? {
      ProcessCases(s, e.op, e.mayWrite, e.now, e.freshId);
      if Commits(s, e.op, e.mayWrite, e.now, e.freshId) {
        EffectCases(s, e.op, e.now, e.freshId);
      }
    } else if e.ResolveConflict? {
      OthersCannotResolve(s, e.input, e.mayWrite, c, d);
    }
  }

  /** Another device's resolution of a claimed conflict is refused; one of another conflict leaves it. */
  lemma OthersCannotResolve(s: State, input: ResolveInput, mayWrite: bool, c: string, d: string)
    requires ClaimedBy(s, c, d) && !(input.conflictId == c && input.deviceId == d)
    ensures ClaimedBy(Resolve(s, input, mayWrite).0, c, d)
    ensures input.conflictId == c && mayWrite ==> Resolve(s, input, mayWrite) == (s, Failed(CONFLICT_NOT_CLAIMED))
  {
    hide ResolvedContent, ResolvedRefs, JoinedVV;
  }

  ghost predicate NeverEnds(events: seq<Event>, c: string, d: string) {
    forall k :: 0 <= k < |events| ==> !EndsClaim(events[k], c, d)
  }

  /** From a claim on, in every run in which the device neither releases nor resolves, the conflict stays
      claimed by it, and claims, releases and resolutions of other devices fail. */
  lemma {:induction false} ClaimIsExclusive(s: State, events: seq<Event>, c: string, d: string, other: string,
          input: ResolveInput)
    requires Reachable(s) && ValidRun(s, events) && ClaimedBy(s, c, d) && d != "" && NeverEnds(events, c, d)
    requires other != d && input.conflictId == c && input.deviceId == other
    ensures var s' := Run(s, events);
      && ClaimedBy(s', c, d)
      && Claim(s', other, true, c) == (s', Failed(FORBIDDEN))
      && Release(s', other, true, c) == (s', Failed(CONFLICT_NOT_CLAIMED))
      && Resolve(s', input, true) == (s', Failed(CONFLICT_NOT_CLAIMED))
  {
    ReachableFreeze(s);
    hide Reachable, Freeze, Step;
    RunKeepsClaim(s, events, c, d);
    ClaimDecides(Run(s, events), other, true, c);
    ReleaseDecides(Run(s, events), other, true, c);
    OthersCannotResolve(Run(s, events), input, true, c, d);
    hide Run, Claim, Release, Resolve;
  }

  lemma {:induction false} RunKeepsClaim(s: State, events: seq<Event>, c: string, d: string)
    requires Freeze(s.files.at, s.conflicts.at) && ValidRun(s, events) && ClaimedBy(s, c, d) && d != ""
    requires NeverEnds(events, c, d)
    ensures ClaimedBy(Run(s, events), c, d)
  {
    hide Step, Freeze, ClaimedBy;
    if |events| > 0 {
      RunKeepsFreeze(s, events[..|events| - 1]);
      RunKeepsClaim(s, events[..|events| - 1], c, d);
      StepKeepsClaim(Run(s, events[..|events| - 1]), events[|events| - 1], c, d);
    }
  }

  // ---- the resolution ----

  ghost predicate NamedBy(c: ConflictRecord, hash: Hash) {
    c.baseHash == Some(hash) || c.oursHash == Some(hash) || c.theirsHash == Some(hash)
  }

  /** The vault knows the hash from a file, a conflict or the log. */
  ghost predicate Known(s: State, hash: Hash) {
    || (exists f :: f in s.files.at && s.files.at[f].contentHash == Some(hash))
    || (exists c :: c in s.conflicts.at && NamedBy(s.conflicts.at[c], hash))
    || (exists k :: 0 <= k < |s.journal.log| && (s.journal.log[k].payload.contentHash == Some(hash)
                                                 || s.journal.log[k].payload.blobRef == Some(hash)))
  }

  ghost predicate VerifiedBlob(s: State, hash: Hash) {
    hash in s.blobs.at && s.blobs.at[hash].state.Verified?
  }

  /** The content of the hash can be fetched. */
  ghost predicate Readable(s: State, hash: Hash) {
    VerifiedBlob(s, hash) || hash in s.content
  }

  lemma KnownIsContent(s: State, hash: Hash)
    ensures HasContent(s, hash) <==> Known(s, hash)
  {
  }

  /** When a resolution by the claiming device is refused, and with which code. */
  lemma ResolutionDecides(s: State, input: ResolveInput, mayWrite: bool)
    requires input.conflictId in s.conflicts.at
    ensures var (s', r) := Resolve(s, input, mayWrite);
      var record := s.conflicts.at[input.conflictId];
      var mine := mayWrite && !record.status.Resolved? && record.claimedBy == Some(input.deviceId);
      var badRequest := (input.resolvedHash.Some? <==> input.inlineText.Some?)
                        || (input.resolvedHash.Some? && !input.resolvedHash.value.Digest?);
      && (!mayWrite ==> s' == s && r == Failed(FORBIDDEN))
      && (mayWrite && record.status.Resolved? ==> s' == s && r == Done(record))
      && (mayWrite && !record.status.Resolved? && record.claimedBy != Some(input.deviceId) ==>
            s' == s && r == Failed(CONFLICT_NOT_CLAIMED))
      && (mine && record.fileId !in s.files.at ==> s' == s && r == Failed(NOT_FOUND))
      && (mine && record.fileId in s.files.at && badRequest ==> s' == s && r == Failed(BAD_REQUEST))
      && (mine && record.fileId in s.files.at && !badRequest ==>
            && (input.inlineText.Some? ==> s' != s && r.Done?)
            && (input.inlineText.None? ==>
                  var hash := input.resolvedHash.value;
                  var open := Known(s, hash) || input.allowPending;
                  && (!open ==> s' == s && r == Failed(FORBIDDEN))
                  && (open && !Readable(s, hash) ==> s' == s && r == Failed(BAD_REQUEST))
                  && (open && Readable(s, hash) ==> s' != s && r.Done?)))
  {
    if input.resolvedHash.Some? { KnownIsContent(s, input.resolvedHash.value); }
    hide HasContent, Known, ResolvedRefs, JoinedVV, ByteLength;
  }

  /** What an effective resolution leaves: the file carries the chosen hash; a verified blob is the file's
      blob, with its size and a live reference; otherwise the text is in the content table; the sides of the
      conflict and a blob the file no longer uses are released. */
  lemma ResolutionLeaves(s: State, input: ResolveInput, mayWrite: bool)
    requires Resolve(s, input, mayWrite).0 != s && Keyed(s.files.at)
    ensures var (s', r) := Resolve(s, input, mayWrite);
      && (input.inlineText.Some? || input.resolvedHash.Some?)
      && var chosen := if input.inlineText.Some? then Digest(input.inlineText.value) else input.resolvedHash.value;
         var record, text := s.conflicts.at[input.conflictId], if chosen in s'.content then s'.content[chosen] else "";
         && input.conflictId in s.conflicts.at && record.fileId in s.files.at && record.fileId in s'.files.at
         && var (file, file') := (s.files.at[record.fileId], s'.files.at[record.fileId]);
            && s'.files.at == s.files.at[record.fileId := file'] && s'.blobs == s.blobs && s'.journal == s.journal
            && file' == file.(contentHash := Some(chosen), blobRef := file'.blobRef, size := file'.size,
                 encrypted := file'.blobRef.Some? && file.encrypted, contentVV := file'.contentVV, conflictId := None,
                 deleted := false)
            && (input.inlineText.None? && VerifiedBlob(s, chosen) ==>
                  && file'.blobRef == Some(chosen) && file'.size == Some(s.blobs.at[chosen].size)
                  && FileLive(chosen, record.fileId) in s'.refs)
            && (input.inlineText.Some? || !VerifiedBlob(s, chosen) ==>
                  && file'.blobRef.None? && chosen in s'.content && file'.size == Some(ByteLength(text)))
            && (input.inlineText.Some? ==> s'.content == s.content[chosen := input.inlineText.value])
            && (input.inlineText.None? ==> s'.content == s.content)
            && s'.conflicts.at == s.conflicts.at[input.conflictId := r.conflict]
            && r == Done(record.(status := Resolved,
                                 resolution := Some(Resolution(input.deviceId, chosen, file'.contentVV))))
            && (forall x :: x in s'.refs && x !in s.refs ==> x == FileLive(chosen, record.fileId))
            && (forall x :: x in s.refs && x !in s'.refs ==>
                  || (x.FileLive? && x.fileId == record.fileId && Some(x.hash) == file.blobRef != file'.blobRef)
                  || (x.ConflictSide? && x.conflictId == input.conflictId))
            && (record.oursHash.Some? ==> ConflictSide(record.oursHash.value, input.conflictId, Ours) !in s'.refs
                                          || record.oursHash.value == Malformed(""))
            && (record.theirsHash.Some? ==> ConflictSide(record.theirsHash.value, input.conflictId, Theirs) !in s'.refs
                                            || record.theirsHash.value == Malformed(""))
  {
    hide HasContent, JoinedVV;
  }

  /** The resolved version: for every device the highest counter of the two sides and the input, one more for
      the resolving device. */
  lemma ResolvedVersion(s: State, input: ResolveInput, mayWrite: bool, d: string)
    requires Resolve(s, input, mayWrite).0 != s && Keyed(s.files.at)
    ensures var s', record := Resolve(s, input, mayWrite).0, s.conflicts.at[input.conflictId];
      && input.conflictId in s.conflicts.at && record.fileId in s'.files.at
      && var highest := Max(Max(CounterFor(record.oursVV, d), CounterFor(record.theirsVV, d)),
                            CounterFor(input.resolvedVV, d));
         CounterFor(s'.files.at[record.fileId].contentVV, d) == if d == input.deviceId then highest + 1 else highest
  {
    var record := s.conflicts.at[input.conflictId];
    assert Resolve(s, input, mayWrite).0.files.at[record.fileId].contentVV == JoinedVV(record, input) by {
      hide ResolvedContent, ResolvedRefs, JoinedVV;
    }
    hide Resolve;
    JoinCounts(record.oursVV, record.theirsVV, d);
    JoinCounts(Join(record.oursVV, record.theirsVV), input.resolvedVV, d);
    JoinCounts(Join(record.oursVV, record.theirsVV), input.resolvedVV, input.deviceId);
    BumpStrictlyDominates(Join(Join(record.oursVV, record.theirsVV), input.resolvedVV), input.deviceId);
    hide Join, Bump;
  }

  lemma JoinCounts(a: VersionVector, b: VersionVector, d: string)
    ensures CounterFor(Join(a, b), d) == Max(CounterFor(a, d), CounterFor(b, d))
  {
  }

  // ---- resolved content stays readable ----

  /** The file's blob is h, verified and held by the file's reference. */
  ghost predicate HoldsBlob(s: State, f: string, h: Hash) {
    && f in s.files.at && s.files.at[f].blobRef == Some(h) && h != Malformed("")
    && FileLive(h, f) in s.refs && VerifiedBlob(s, h)
  }

  ghost predicate BlobOf(s: State, f: string, h: Hash) {
    f in s.files.at && s.files.at[f].blobRef == Some(h)
  }

  /** Only an operation on f itself can take a live reference of f away, and then the file has another blob. */
  lemma PreparedKeepsLive(s: State, op: FileOp, now: nat, freshId: string, f: string, h: Hash)
    requires Prepare(s, op, now, freshId).Success? && Keyed(s.files.at)
    requires FileLive(h, f) in s.refs && h != Malformed("")
    requires BlobOf(s, f, h) && (op.fileId == f ==> Prepare(s, op, now, freshId).value.file.blobRef == Some(h))
    ensures FileLive(h, f) in Prepare(s, op, now, freshId).value.refs
  {
    hide UniquePath, NormalizePath, Dominates, Join, CaseFold, Validate, CreateConflict, IsConcurrent;
  }

  lemma {:induction false} SubmitKeepsBlob(s: State, e: Event, f: string, h: Hash)
    requires Keyed(s.files.at) && HoldsBlob(s, f, h) && e.Submit? && BlobOf(Step(s, e), f, h)
    ensures HoldsBlob(Step(s, e), f, h)
  {
    ProcessCases(s, e.op, e.mayWrite, e.now, e.freshId);
    hide Process, Prepare, Admission, Record, StoredContent;
    if Commits(s, e.op, e.mayWrite, e.now, e.freshId) {
      EffectCases(s, e.op, e.now, e.freshId);
      PreparedKeepsLive(s, e.op, e.now, e.freshId, f, h);
    }
  }

  lemma OtherKeepsBlob(s: State, e: Event, f: string, h: Hash)
    requires Keyed(s.files.at) && HoldsBlob(s, f, h) && !e.Submit? && BlobOf(Step(s, e), f, h)
    ensures HoldsBlob(Step(s, e), f, h)
  {
    if e.ResolveConflict? {
      ResolveKeepsBlob(s, e.input, e.mayWrite, f, h);
    } else if e.CollectGarbage? {
      assert Referenced(s.refs, h) by { assert FileLive(h, f).hash == h; }
    }
    hide Resolve;
  }

  lemma {:induction false} ResolveKeepsBlob(s: State, input: ResolveInput, mayWrite: bool, f: string, h: Hash)
    requires Keyed(s.files.at) && HoldsBlob(s, f, h) && BlobOf(Resolve(s, input, mayWrite).0, f, h)
    ensures HoldsBlob(Resolve(s, input, mayWrite).0, f, h)
  {
    if Resolve(s, input, mayWrite).0 != s {
      ResolutionLeaves(s, input, mayWrite);
      hide Resolve, ByteLength;
    }
  }

  ghost predicate KeepsBlob(s: State, events: seq<Event>, f: string, h: Hash) {
    (|events| > 0 ==> KeepsBlob(s, events[..|events| - 1], f, h)) && BlobOf(Run(s, events), f, h)
  }

  lemma {:induction false} RunKeepsBlob(s: State, events: seq<Event>, f: string, h: Hash)
    requires Keyed(s.files.at) && HoldsBlob(s, f, h) && KeepsBlob(s, events, f, h)
    ensures Keyed(Run(s, events).files.at) && HoldsBlob(Run(s, events), f, h)
  {
    hide Step, Keyed, HoldsBlob, BlobOf;
    if |events| > 0 {
      var before, e := Run(s, events[..|events| - 1]), events[|events| - 1];
      RunKeepsBlob(s, events[..|events| - 1], f, h);
      StepKeepsKeyed(before, e);
      if e.Submit? { SubmitKeepsBlob(before, e, f, h); } else { OtherKeepsBlob(before, e, f, h); }
    }
  }

  /** After an effective resolution the chosen content can be fetched in every continuation in which the file
      keeps the blob the resolution gave it; a chosen text in every continuation whatsoever. */
  lemma {:induction false} ResolvedContentStaysReadable(s: State, input: ResolveInput, mayWrite: bool,
          later: seq<Event>)
    requires Reachable(s) && Resolve(s, input, mayWrite).0 != s
    ensures input.conflictId in s.conflicts.at
    ensures var s', f := Resolve(s, input, mayWrite).0, s.conflicts.at[input.conflictId].fileId;
      && f in s'.files.at && s'.files.at[f].contentHash.Some?
      && var chosen := s'.files.at[f].contentHash.value;
         && (s'.files.at[f].blobRef.None? ==> chosen in Run(s', later).content)
         && (s'.files.at[f].blobRef.Some? && KeepsBlob(s', later, f, chosen) ==> VerifiedBlob(Run(s', later), chosen))
         && (s'.files.at[f].blobRef.Some? ==> s'.files.at[f].blobRef == Some(chosen))
  {
    ReachableFreeze(s);
    ReachableAddressed(s);
    FreezeKeyed(s);
    ResolutionLeaves(s, input, mayWrite);
    ResolveKeeps(s, input, mayWrite);
    hide Reachable, Freeze, Resolve, ByteLength, Run, KeepsBlob;
    var s', f := Resolve(s, input, mayWrite).0, s.conflicts.at[input.conflictId].fileId;
    RunKeepsContent(s', later);
    var chosen := s'.files.at[f].contentHash.value;
    if s'.files.at[f].blobRef.Some? && KeepsBlob(s', later, f, chosen) {
      ResolvedIsKeyed(s, input, mayWrite);
      RunKeepsBlob(s', later, f, chosen);
    }
  }

  lemma FreezeKeyed(s: State)
    requires Freeze(s.files.at, s.conflicts.at)
    ensures Keyed(s.files.at)
  {
  }

  lemma ResolvedIsKeyed(s: State, input: ResolveInput, mayWrite: bool)
    requires Keyed(s.files.at)
    ensures Keyed(Resolve(s, input, mayWrite).0.files.at)
  {
    hide ResolvedContent, ResolvedRefs, JoinedVV;
  }
}
