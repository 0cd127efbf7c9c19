/** The life of an uploaded blob: it is trusted only after its bytes have been measured and hashed, and it is
    removed only by a collection that comes long enough after one that found it unreferenced. */
module BlobLifecycle {
  import opened Options
  import opened Vault
  import opened VaultRuns

  ghost predicate NobodyRefers(s: State, h: Hash) {
    forall r :: r in s.refs ==> r.hash != h
  }

  // ---- one request ----

  /** What an upload does to the records: starting one enters or reopens the record unless it is verified or
      was registered with another size; completing one verifies exactly when size and hash are right. */
  lemma UploadDecides(s: State, h: Hash, size: int, storedHash: Hash)
    ensures var s' := InitUpload(s, h, size);
      if h.Digest? && 0 <= size <= 9007199254740991 && h !in s.blobs.at
      then s' == s.(blobs := s'.blobs) && s'.blobs.at == s.blobs.at[h := BlobRecord(size, Pending, None)]
      else if h.Digest? && h in s.blobs.at && s.blobs.at[h].state != Verified && s.blobs.at[h].size == size
          && size <= 9007199254740991
      then s' == s.(blobs := s'.blobs)
           && s'.blobs.at == s.blobs.at[h := BlobRecord(size, Pending, s.blobs.at[h].unreferencedAt)]
      else s' == s
    ensures var s' := CompleteUpload(s, h, size, storedHash);
      if h.Digest? && h in s.blobs.at && s.blobs.at[h].size == size && storedHash == h
      then s' == s.(blobs := s'.blobs) && s'.blobs.at == s.blobs.at[h := BlobRecord(size, Verified, None)]
      else s' == s
  {
  }

  /** A collection leaves referenced and removed blobs alone, marks those it finds unreferenced for the first
      time, and removes those that were marked at least minAge before. */
  lemma CollectionDecides(s: State, minAge: nat, now: nat, h: Hash)
    requires h in s.blobs.at
    ensures var s', blob := GcUnreferenced(s, minAge, now), s.blobs.at[h];
      && s' == s.(blobs := s'.blobs) && s'.blobs.at.Keys == s.blobs.at.Keys
      && s'.blobs.at[h] ==
           if !NobodyRefers(s, h) || blob.state == Deleted then blob
           else if blob.unreferencedAt == None then BlobRecord(blob.size, Unreferenced, Some(now))
           else if now - blob.unreferencedAt.value >= minAge then BlobRecord(blob.size, Deleted, blob.unreferencedAt)
           else blob
  {
  }

  // ---- runs ----

  /** The j-th event is a collection at time t that finds h there and unreferenced. */
  ghost predicate FoundUnreferenced(events: seq<Event>, j: nat, h: Hash, t: nat)
    requires j < |events|
  {
    && events[j].CollectGarbage? && events[j].now == t
    && h in Run(Initial, events[..j]).blobs.at && NobodyRefers(Run(Initial, events[..j]), h)
  }

  /** The j-th event completes an upload whose stored bytes have this size and this very hash. */
  ghost predicate Checked(events: seq<Event>, j: nat, h: Hash, size: nat)
    requires j < |events|
  {
    events[j] == UploadComplete(h, size, h) && h in Run(Initial, events[..j]).blobs.at
    && Run(Initial, events[..j]).blobs.at[h].size == size
  }

  /** Each mark stems from a collection, each trusted blob from a checked upload, and has no mark. */
  ghost predicate Explained(events: seq<Event>, h: Hash, blob: BlobRecord) {
    && (blob.unreferencedAt.Some? ==>
          exists j: nat :: j < |events| && FoundUnreferenced(events, j, h, blob.unreferencedAt.value))
    && (blob.state == Verified ==>
          blob.unreferencedAt.None? && exists j: nat :: j < |events| && Checked(events, j, h, blob.size))
  }

  lemma {:induction false} StillExplained(events: seq<Event>, e: Event, h: Hash, blob: BlobRecord)
    requires Explained(events, h, blob)
    ensures Explained(events + [e], h, blob)
  {
    forall j: nat | j < |events| ensures (events + [e])[..j] == events[..j] && (events + [e])[j] == events[j] {
    }
    hide Run;
    if blob.unreferencedAt.Some? {
      var j: nat :| j < |events| && FoundUnreferenced(events, j, h, blob.unreferencedAt.value);
      assert FoundUnreferenced(events + [e], j, h, blob.unreferencedAt.value);
    }
    if blob.state == Verified {
      var j: nat :| j < |events| && Checked(events, j, h, blob.size);
      assert Checked(events + [e], j, h, blob.size);
    }
  }

  /** Only uploads and collections touch the records. */
  lemma OthersKeepBlobs(s: State, e: Event)
    requires !e.UploadInit? && !e.UploadComplete? && !e.CollectGarbage?
    ensures Step(s, e).blobs == s.blobs
  {
    if e.Submit? {
      ProcessCases(s, e.op, e.mayWrite, e.now, e.freshId);
      hide Prepare, Admission, Record, StoredContent;
    }
    hide ResolvedContent, ResolvedRefs, JoinedVV;
  }

  lemma {:induction false} StepExplains(events: seq<Event>, e: Event, h: Hash)
    requires forall x :: x in Run(Initial, events).blobs.at ==> Explained(events, x, Run(Initial, events).blobs.at[x])
    requires h in Step(Run(Initial, events), e).blobs.at
    ensures Explained(events + [e], h, Step(Run(Initial, events), e).blobs.at[h])
  {
    var s, all := Run(Initial, events), events + [e];
    assert all[..|events|] == events && all[|events|] == e;
    hide Run, Explained, InitUpload, CompleteUpload, GcUnreferenced;
    if h in s.blobs.at { StillExplained(events, e, h, s.blobs.at[h]); }
    if e.UploadInit? || e.UploadComplete? {
      if e.UploadInit? { UploadDecides(s, e.hash, e.size, e.hash); }
      if e.UploadComplete? { UploadDecides(s, e.hash, e.storedSize, e.storedHash); }
      UploadExplained(events, e, h);
    } else if e.CollectGarbage? {
      CollectionExplained(events, e, h);
    } else {
      OthersKeepBlobs(s, e);
      hide Step;
    }
  }

  lemma {:induction false} UploadExplained(events: seq<Event>, e: Event, h: Hash)
    requires e.UploadInit? || e.UploadComplete?
    requires h in Step(Run(Initial, events), e).blobs.at
    requires h in Run(Initial, events).blobs.at ==> Explained(events + [e], h, Run(Initial, events).blobs.at[h])
    ensures Explained(events + [e], h, Step(Run(Initial, events), e).blobs.at[h])
  {
    var s, all := Run(Initial, events), events + [e];
    assert all[..|events|] == events && all[|events|] == e;
    hide Run;
    if e.UploadComplete? {
      UploadDecides(s, e.hash, e.storedSize, e.storedHash);
      if e.hash == h && Step(s, e) != s { assert Checked(all, |events|, h, e.storedSize); }
    } else {
      UploadDecides(s, e.hash, e.size, e.hash);
    }
    hide InitUpload, CompleteUpload;
  }

  lemma {:induction false} CollectionExplained(events: seq<Event>, e: Event, h: Hash)
    requires e.CollectGarbage? && h in Run(Initial, events).blobs.at
    requires Explained(events + [e], h, Run(Initial, events).blobs.at[h])
    ensures h in Step(Run(Initial, events), e).blobs.at
    ensures Explained(events + [e], h, Step(Run(Initial, events), e).blobs.at[h])
  {
    var s, all := Run(Initial, events), events + [e];
    assert all[..|events|] == events && all[|events|] == e;
    CollectionDecides(s, e.minAge, e.now, h);
    hide Run, GcUnreferenced;
    if NobodyRefers(s, h) { assert FoundUnreferenced(all, |events|, h, e.now); }
  }

  lemma {:induction false} RunExplains(events: seq<Event>)
    ensures forall h :: h in Run(Initial, events).blobs.at ==> Explained(events, h, Run(Initial, events).blobs.at[h])
  {
    hide Step, Explained;
    if events != [] {
      var before, e := events[..|events| - 1], events[|events| - 1];
      RunExplains(before);
      assert before + [e] == events;
      forall h | h in Run(Initial, events).blobs.at ensures Explained(events, h, Run(Initial, events).blobs.at[h]) {
        StepExplains(before, e, h);
      }
    }
  }

  /** In every run a blob that is trusted was uploaded: its stored bytes had its recorded size and hashed to
      its name. */
  lemma {:induction false} VerifiedWasChecked(events: seq<Event>, h: Hash)
    requires h in Run(Initial, events).blobs.at && Run(Initial, events).blobs.at[h].state == Verified
    ensures exists j: nat :: j < |events| && Checked(events, j, h, Run(Initial, events).blobs.at[h].size)
  {
    RunExplains(events);
    hide Run;
  }

  /** In every run, a request that removes a blob is a collection that finds it unreferenced, at least minAge
      after an earlier one that found it unreferenced too. */
  lemma {:induction false} RemovedOnlyAfterGrace(events: seq<Event>, e: Event, h: Hash)
    requires var s := Run(Initial, events);
      && h in s.blobs.at && s.blobs.at[h].state != Deleted
      && h in Step(s, e).blobs.at && Step(s, e).blobs.at[h].state == Deleted
    ensures e.CollectGarbage? && NobodyRefers(Run(Initial, events), h)
    ensures exists j: nat, t: nat :: j < |events| && FoundUnreferenced(events, j, h, t) && e.now - t >= e.minAge
  {
    var s := Run(Initial, events);
    RunExplains(events);
    hide Run, InitUpload, CompleteUpload, GcUnreferenced;
    if e.UploadInit? {
      UploadDecides(s, e.hash, e.size, e.hash);
    } else if e.UploadComplete? {
      UploadDecides(s, e.hash, e.storedSize, e.storedHash);
    } else if e.CollectGarbage? {
      CollectionDecides(s, e.minAge, e.now, h);
    } else {
      OthersKeepBlobs(s, e);
    }
    hide Step;
  }
}
