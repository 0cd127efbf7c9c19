/** Who may change a vault: an operation of a device is accepted only from a registered, unrevoked
    device of a member that may write, and every log entry of a device came from such a one. */
module Senders {
  import opened Options
  import opened Vault
  import opened VaultRuns

  /** A registered device that is not revoked, whose member may write. */
  ghost predicate MayChange(s: State, deviceId: string, mayWrite: bool) {
    deviceId in s.journal.devices && !s.journal.devices[deviceId].revoked && mayWrite
  }

  /** What a new operation of a device is answered before it is looked into: the sender is refused in
      this order, then its place in the device's stream decides. */
  lemma SenderDecides(s: State, op: FileOp, mayWrite: bool, now: nat, freshId: string)
    requires op.opId !in s.journal.opsById && op.deviceId != "collab:" + op.fileId
    ensures var (s', r) := Process(s, op, mayWrite, now, freshId);
      var devices, key := s.journal.devices, (op.deviceId, op.deviceSeq);
      && (op.deviceId !in devices ==> s' == s && r == Reject(op.opId, UNAUTHENTICATED, None))
      && (op.deviceId in devices && devices[op.deviceId].revoked ==>
            s' == s && r == Reject(op.opId, DEVICE_REVOKED, None))
      && (op.deviceId in devices && !devices[op.deviceId].revoked && !mayWrite ==>
            s' == s && r == Reject(op.opId, FORBIDDEN, None))
      && (MayChange(s, op.deviceId, mayWrite) ==>
            var last := devices[op.deviceId].lastDeviceSeq;
            && (op.deviceSeq <= last ==>
                  && s' == s
                  && r == (if key in s.journal.opsByDeviceSeq then s.journal.opsByDeviceSeq[key].result
                           else Reject(op.opId, STALE, Some(last + 1))))
            && (op.deviceSeq > last + 1 ==> s' == s && r == Reject(op.opId, SEQ_GAP, Some(last + 1))))
      && (s'.journal != s.journal ==>
            && r.Ack? && MayChange(s, op.deviceId, mayWrite) && op.deviceSeq == devices[op.deviceId].lastDeviceSeq + 1)
      && (r.Ack? ==> MayChange(s, op.deviceId, mayWrite))
  {
    assert CollabDevice(op.fileId) == "collab:" + op.fileId;
    hide Prepare, Commit, StoredContent, CollabDevice;
  }

  // ---- runs ----

  /** The log entry is the k-th event's operation, sent by one that might change the vault. */
  ghost predicate SubmittedBy(events: seq<Event>, k: nat, entry: StoredOp)
    requires k < |events|
  {
    && events[k].Submit? && events[k].op == entry.payload
    && (entry.deviceId != "collab:" + entry.payload.fileId ==>
          MayChange(Run(Initial, events[..k]), entry.deviceId, events[k].mayWrite))
  }

  ghost predicate AllSubmitted(events: seq<Event>, log: seq<StoredOp>) {
    forall entry :: entry in log ==>
      entry.payload.deviceId == entry.deviceId && exists k: nat :: k < |events| && SubmittedBy(events, k, entry)
  }

  lemma {:induction false} InsertedEntries(log: seq<StoredOp>, entry: StoredOp)
    ensures forall x :: x in InsertBySeq(log, entry) ==> x in log || x == entry
  {
    if |log| > 0 && log[|log| - 1].vaultSeq > entry.vaultSeq {
      InsertedEntries(log[..|log| - 1], entry);
    }
  }

  /** A step adds at most one entry to the log: the operation just submitted. */
  lemma {:induction false} StepLogs(s: State, e: Event)
    ensures forall x :: x in Step(s, e).journal.log && x !in s.journal.log ==>
      && e.Submit? && x.payload == e.op && x.deviceId == e.op.deviceId
      && (e.op.deviceId != "collab:" + e.op.fileId ==> MayChange(s, e.op.deviceId, e.mayWrite))
  {
    if e.Submit? {
      ProcessCases(s, e.op, e.mayWrite, e.now, e.freshId);
      if Commits(s, e.op, e.mayWrite, e.now, e.freshId) {
        InsertedEntries(s.journal.log, EntryOf(s.journal, e.op, Prepare(s, e.op, e.now, e.freshId).value));
        if e.op.deviceId != "collab:" + e.op.fileId { CommitsNeedsSender(s, e); }
      }
      hide Process, Prepare, Admission, InsertBySeq, StoredContent, Commits;
    } else {
      OthersKeepLog(s, e);
      hide OtherStep;
    }
  }

  lemma CommitsNeedsSender(s: State, e: Event)
    requires e.Submit? && Commits(s, e.op, e.mayWrite, e.now, e.freshId) && e.op.deviceId != "collab:" + e.op.fileId
    ensures MayChange(s, e.op.deviceId, e.mayWrite)
  {
    assert CollabDevice(e.op.fileId) == "collab:" + e.op.fileId;
    hide Prepare, CollabDevice;
  }

  lemma OthersKeepLog(s: State, e: Event)
    requires !e.Submit?
    ensures OtherStep(s, e).journal.log == s.journal.log
  {
    hide ResolvedContent, ResolvedRefs, JoinedVV, CollectedBlobs;
  }

  /** In every run each log entry was submitted in it, unless by a room by a device that was registered
      and not revoked at that moment, for a member that might write. */
  lemma {:induction false} LogComesFromWriters(events: seq<Event>)
    ensures AllSubmitted(events, Run(Initial, events).journal.log)
  {
    hide Step, MayChange;
    if |events| > 0 {
      var before, last := events[..|events| - 1], events[|events| - 1];
      var s := Run(Initial, before);
      LogComesFromWriters(before);
      StepLogs(s, last);
      forall entry | entry in Step(s, last).journal.log
        ensures entry.payload.deviceId == entry.deviceId
        ensures exists k: nat :: k < |events| && SubmittedBy(events, k, entry)
      {
        if entry in s.journal.log {
          var k: nat :| k < |before| && SubmittedBy(before, k, entry);
          assert before[..k] == events[..k] && before[k] == events[k];
          assert SubmittedBy(events, k, entry);
        } else {
          assert SubmittedBy(events, |before|, entry);
        }
      }
    }
  }

  // ---- revoked devices ----

  ghost predicate IsRevoked(s: State, d: string) {
    d in s.journal.devices && s.journal.devices[d].revoked
  }

  /** The entries of the device's own operations. */
  ghost predicate OwnEntry(x: StoredOp, d: string) {
    x.deviceId == d && d != "collab:" + x.payload.fileId
  }

  lemma {:induction false} StepKeepsRevoked(s: State, e: Event, d: string)
    requires IsRevoked(s, d)
    ensures IsRevoked(Step(s, e), d)
    ensures forall x :: x in Step(s, e).journal.log && x !in s.journal.log ==> !OwnEntry(x, d)
  {
    StepLogs(s, e);
    if e.Submit? {
      ProcessCases(s, e.op, e.mayWrite, e.now, e.freshId);
      hide Process, Prepare, Admission, InsertBySeq, StoredContent;
    } else if !e.Register? && !e.Revoke? {
      OthersKeepDevices(s, e);
      hide OtherStep;
    }
  }

  lemma OthersKeepDevices(s: State, e: Event)
    requires !e.Submit? && !e.Register? && !e.Revoke?
    ensures OtherStep(s, e).journal == s.journal
  {
    hide ResolvedContent, ResolvedRefs, JoinedVV, CollectedBlobs;
  }

  lemma {:induction false} RunKeepsRevoked(s: State, events: seq<Event>, d: string)
    requires IsRevoked(s, d)
    ensures IsRevoked(Run(s, events), d)
    ensures forall x :: x in Run(s, events).journal.log && x !in s.journal.log ==> !OwnEntry(x, d)
  {
    hide Step, IsRevoked, OwnEntry;
    if |events| > 0 {
      RunKeepsRevoked(s, events[..|events| - 1], d);
      StepKeepsRevoked(Run(s, events[..|events| - 1]), events[|events| - 1], d);
    }
  }

  /** Once a registered device is revoked, whatever happens later, even registering it again, none of its own
      operations enters the log, and each new one is refused as coming from a revoked device. */
  lemma {:induction false} RevokedStaysOut(s: State, d: string, later: seq<Event>, op: FileOp, mayWrite: bool,
          now: nat, freshId: string)
    requires d in s.journal.devices && op.deviceId == d && d != "collab:" + op.fileId
    ensures var s' := Run(Step(s, Revoke(d)), later);
      && (forall x :: x in s'.journal.log && x !in s.journal.log ==> !OwnEntry(x, d))
      && (op.opId !in s'.journal.opsById ==>
            Process(s', op, mayWrite, now, freshId) == (s', Reject(op.opId, DEVICE_REVOKED, None)))
  {
    RunKeepsRevoked(Step(s, Revoke(d)), later, d);
    hide Run, Process;
    var s' := Run(Step(s, Revoke(d)), later);
    if op.opId !in s'.journal.opsById { SenderDecides(s', op, mayWrite, now, freshId); }
  }
}
