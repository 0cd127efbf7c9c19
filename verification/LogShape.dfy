/** The shape of the vault log in every run: dense numbering, distinct operation ids, gap-free
    device streams, idempotent resubmission. */
module LogShape {
  import opened Vault
  import opened VaultRuns

  type Log = seq<StoredOp>

  ghost predicate EntryShape(e: StoredOp, i: nat) {
    && e.vaultSeq == i + 1 && e.opId == e.payload.opId && e.deviceId == e.payload.deviceId
    && e.deviceSeq == e.payload.deviceSeq
    && e.result.Ack? && e.result.opId == e.opId && e.result.vaultSeq == i + 1
  }

  /** The log is numbered 1..n. */
  ghost predicate Numbered(log: Log) {
    forall i :: 0 <= i < |log| ==> EntryShape(log[i], i)
  }

  /** The outbox repeats the log. */
  ghost predicate Mirrored(log: Log, outbox: seq<AppliedOp>) {
    && |outbox| == |log|
    && forall i :: 0 <= i < |log| ==>
         log[i].result.Ack? && outbox[i] == AppliedOp(i + 1, log[i].payload, log[i].result.clocks)
  }

  ghost predicate InLog(log: Log, e: StoredOp) {
    1 <= e.vaultSeq <= |log| && log[e.vaultSeq - 1] == e
  }

  /** The index by operation id holds exactly the entries of the log. */
  ghost predicate ById(log: Log, opsById: map<OpId, StoredOp>) {
    && (forall i :: 0 <= i < |log| ==> log[i].opId in opsById && opsById[log[i].opId] == log[i])
    && (forall id :: id in opsById ==> InLog(log, opsById[id]) && opsById[id].opId == id)
  }

  /** The index by device sequence covers the log and holds only entries of it. */
  ghost predicate ByDeviceSeq(log: Log, index: map<(string, int), StoredOp>) {
    && (forall i :: 0 <= i < |log| ==> (log[i].deviceId, log[i].deviceSeq) in index)
    && (forall k :: k in index ==> InLog(log, index[k]) && (index[k].deviceId, index[k].deviceSeq) == k)
  }

  /** The device sequence numbers of one device's own entries, in vault order. */
  ghost function DeviceSeqs(log: Log, deviceId: string): seq<int> {
    if |log| == 0 then []
    else
      var last := log[|log| - 1];
      DeviceSeqs(log[..|log| - 1], deviceId)
          + (if last.deviceId == deviceId && !Synthetic(last.payload) then [last.deviceSeq] else [])
  }

  ghost function UpTo(n: nat): seq<int> {
    seq(n, i => i + 1)
  }

  /** Every device's entries carry 1, 2, ... up to its recorded last number. */
  ghost predicate GapFree(log: Log, devices: map<string, StoredDevice>) {
    && (forall d :: d in devices ==>
          devices[d].lastDeviceSeq >= 0 && DeviceSeqs(log, d) == UpTo(devices[d].lastDeviceSeq))
    && (forall i :: 0 <= i < |log| && !Synthetic(log[i].payload) ==> log[i].deviceId in devices)
  }

  ghost predicate LogShape(j: Journal) {
    && j.nextSeq == |j.log| + 1
    && Numbered(j.log) && Mirrored(j.log, j.outbox) && ById(j.log, j.opsById) && ByDeviceSeq(j.log, j.opsByDeviceSeq)
    && GapFree(j.log, j.devices)
  }

  // ---- one more entry ----

  lemma ByIdAppend(log: Log, opsById: map<OpId, StoredOp>, e: StoredOp)
    requires ById(log, opsById) && e.opId !in opsById && e.vaultSeq == |log| + 1
    ensures ById(log + [e], opsById[e.opId := e])
  {
    var opsById' := opsById[e.opId := e];
    forall id | id in opsById' ensures InLog(log + [e], opsById'[id]) && opsById'[id].opId == id {
      if id != e.opId { assert InLog(log, opsById[id]); }
    }
  }

  lemma ByDeviceSeqAppend(log: Log, index: map<(string, int), StoredOp>, e: StoredOp)
    requires ByDeviceSeq(log, index) && e.vaultSeq == |log| + 1
    ensures ByDeviceSeq(log + [e], index[(e.deviceId, e.deviceSeq) := e])
  {
    var index' := index[(e.deviceId, e.deviceSeq) := e];
    forall k | k in index' ensures InLog(log + [e], index'[k]) && (index'[k].deviceId, index'[k].deviceSeq) == k {
      if k != (e.deviceId, e.deviceSeq) { assert InLog(log, index[k]); }
    }
  }

  lemma NumberedAppend(log: Log, outbox: seq<AppliedOp>, e: StoredOp)
    requires Numbered(log) && Mirrored(log, outbox) && EntryShape(e, |log|)
    ensures Numbered(log + [e])
    ensures Mirrored(log + [e], outbox + [AppliedOp(e.vaultSeq, e.payload, e.result.clocks)])
  {
  }

  lemma GapFreeAppend(log: Log, devices: map<string, StoredDevice>, devices': map<string, StoredDevice>, e: StoredOp)
    requires GapFree(log, devices) && e.deviceId == e.payload.deviceId
    requires Synthetic(e.payload) ==> devices' == devices
    requires !Synthetic(e.payload) ==>
      && e.deviceId in devices && e.deviceSeq == devices[e.deviceId].lastDeviceSeq + 1
      && devices'.Keys == devices.Keys && devices'[e.deviceId].lastDeviceSeq == e.deviceSeq
      && forall d :: d in devices && d != e.deviceId ==> devices'[d] == devices[d]
    ensures GapFree(log + [e], devices')
  {
    assert (log + [e])[..|log|] == log;
    forall d | d in devices'
      ensures devices'[d].lastDeviceSeq >= 0 && DeviceSeqs(log + [e], d) == UpTo(devices'[d].lastDeviceSeq)
    {
      assert DeviceSeqs(log, d) == UpTo(devices[d].lastDeviceSeq);
    }
  }

  lemma {:induction false} NoEntries(log: Log, deviceId: string)
    requires forall i :: 0 <= i < |log| && !Synthetic(log[i].payload) ==> log[i].deviceId != deviceId
    ensures DeviceSeqs(log, deviceId) == []
  {
    if |log| > 0 { NoEntries(log[..|log| - 1], deviceId); }
  }

  lemma InsertAtEnd(log: Log, e: StoredOp)
    requires Numbered(log) && e.vaultSeq == |log| + 1
    ensures InsertBySeq(log, e) == log + [e]
  {
    if |log| > 0 {
      assert EntryShape(log[|log| - 1], |log| - 1);
    }
  }

  lemma {:induction false} RecordKeepsLog(j: Journal, op: FileOp, e: Effect)
    requires LogShape(j) && op.opId !in j.opsById
    ensures var j' := Record(j, op, e);
      && j'.log == j.log + [EntryOf(j, op, e)] && j'.nextSeq == |j'.log| + 1
      && Numbered(j'.log) && Mirrored(j'.log, j'.outbox) && ById(j'.log, j'.opsById)
      && ByDeviceSeq(j'.log, j'.opsByDeviceSeq)
  {
    var stored := EntryOf(j, op, e);
    InsertAtEnd(j.log, stored);
    ByIdAppend(j.log, j.opsById, stored);
    ByDeviceSeqAppend(j.log, j.opsByDeviceSeq, stored);
    NumberedAppend(j.log, j.outbox, stored);
    hide Numbered, Mirrored, ById, ByDeviceSeq, GapFree, InsertBySeq;
  }

  lemma RecordKeepsStreams(j: Journal, op: FileOp, e: Effect)
    requires GapFree(j.log, j.devices)
    requires !Synthetic(op) ==> op.deviceId in j.devices && op.deviceSeq == j.devices[op.deviceId].lastDeviceSeq + 1
    ensures GapFree(j.log + [EntryOf(j, op, e)], Record(j, op, e).devices)
  {
    hide InsertBySeq;
    GapFreeAppend(j.log, j.devices, Record(j, op, e).devices, EntryOf(j, op, e));
  }

  lemma {:induction false} RecordKeepsShape(j: Journal, op: FileOp, e: Effect)
    requires LogShape(j) && op.opId !in j.opsById
    requires !Synthetic(op) ==> op.deviceId in j.devices && op.deviceSeq == j.devices[op.deviceId].lastDeviceSeq + 1
    ensures LogShape(Record(j, op, e)) && Record(j, op, e).log == j.log + [EntryOf(j, op, e)]
  {
    RecordKeepsLog(j, op, e);
    RecordKeepsStreams(j, op, e);
    hide Numbered, Mirrored, ById, ByDeviceSeq, GapFree, Record;
  }

  lemma Admitted(j: Journal, op: FileOp, mayWrite: bool)
    requires Admission(j, op, mayWrite).None? && !Synthetic(op)
    ensures op.deviceId in j.devices && op.deviceSeq == j.devices[op.deviceId].lastDeviceSeq + 1
  {
  }

  lemma {:induction false} ProcessKeepsShape(s: State, op: FileOp, mayWrite: bool, now: nat, freshId: string)
    requires LogShape(s.journal)
    ensures LogShape(Process(s, op, mayWrite, now, freshId).0.journal)
  {
    ProcessCases(s, op, mayWrite, now, freshId);
    hide Process, Prepare, StoredContent, Admission, Record;
    if Commits(s, op, mayWrite, now, freshId) {
      if !Synthetic(op) { Admitted(s.journal, op, mayWrite); }
      RecordKeepsShape(s.journal, op, Prepare(s, op, now, freshId).value);
    }
  }

  /** Only submissions and device administration touch the journal. */
  lemma OthersKeepJournal(s: State, e: Event)
    requires !e.Submit? && !e.Register? && !e.Revoke?
    ensures OtherStep(s, e).journal == s.journal
  {
  }

  lemma {:induction false} StepKeepsShape(s: State, e: Event)
    requires LogShape(s.journal)
    ensures LogShape(Step(s, e).journal)
  {
    hide Process, Numbered, Mirrored, ById, ByDeviceSeq, GapFree, Resolve, Claim, Release, CollectedBlobs, InitUpload,
         CompleteUpload;
    if e.Submit? {
      ProcessKeepsShape(s, e.op, e.mayWrite, e.now, e.freshId);
    } else if e.Register? {
      RegisterKeepsStreams(s.journal, e.deviceId);
    } else if e.Revoke? {
      RevokeKeepsStreams(s.journal, e.deviceId);
    } else {
      OthersKeepJournal(s, e);
    }
  }

  lemma RegisterKeepsStreams(j: Journal, deviceId: string)
    requires GapFree(j.log, j.devices)
    ensures GapFree(j.log, RegisterDevice(j, deviceId).devices)
  {
    if deviceId !in j.devices { NoEntries(j.log, deviceId); }
  }

  lemma RevokeKeepsStreams(j: Journal, deviceId: string)
    requires GapFree(j.log, j.devices)
    ensures GapFree(j.log, RevokeDevice(j, deviceId).devices)
  {
  }

  lemma {:induction false} RunKeepsShape(s: State, events: seq<Event>)
    requires LogShape(s.journal)
    ensures LogShape(Run(s, events).journal)
  {
    hide Step;
    if |events| > 0 {
      RunKeepsShape(s, events[..|events| - 1]);
      StepKeepsShape(Run(s, events[..|events| - 1]), events[|events| - 1]);
    }
  }

  lemma ReachableShape(s: State)
    requires Reachable(s)
    ensures LogShape(s.journal)
  {
    hide Step;
    var events :| ValidRun(Initial, events) && s == Run(Initial, events);
    assert LogShape(Initial.journal);
    RunKeepsShape(Initial, events);
  }

  /** In every reachable state the log is numbered 1..n, no operation id occurs twice, and the
      entries of each device carry consecutive numbers that end at its recorded last one. */
  lemma {:induction false} ReachableLogShape(s: State)
    requires Reachable(s)
    ensures var j := s.journal;
      && (forall i :: 0 <= i < |j.log| ==> j.log[i].vaultSeq == i + 1)
      && (forall i, k :: 0 <= i < k < |j.log| ==> j.log[i].opId != j.log[k].opId)
      && (forall d :: d in j.devices ==>
            j.devices[d].lastDeviceSeq >= 0 && DeviceSeqs(j.log, d) == UpTo(j.devices[d].lastDeviceSeq))
  {
    ReachableShape(s);
    hide Reachable;
    DistinctIds(s.journal);
  }

  lemma DistinctIds(j: Journal)
    requires LogShape(j)
    ensures forall i, k :: 0 <= i < k < |j.log| ==> j.log[i].opId != j.log[k].opId
  {
    forall i, k | 0 <= i < k < |j.log| ensures j.log[i].opId != j.log[k].opId {
      assert j.opsById[j.log[i].opId] == j.log[i] && j.opsById[j.log[k].opId] == j.log[k];
      assert EntryShape(j.log[i], i) && EntryShape(j.log[k], k);
    }
  }

  // ---- resubmission ----

  lemma StepKeepsRecords(s: State, e: Event, id: OpId)
    requires id in s.journal.opsById
    ensures id in Step(s, e).journal.opsById && Step(s, e).journal.opsById[id] == s.journal.opsById[id]
  {
    if e.Submit? {
      ProcessCases(s, e.op, e.mayWrite, e.now, e.freshId);
      hide Prepare, StoredContent, Admission, InsertBySeq;
    } else if !e.Register? && !e.Revoke? {
      OthersKeepJournal(s, e);
      hide OtherStep;
    }
  }

  lemma {:induction false} RunKeepsRecords(s: State, events: seq<Event>, id: OpId)
    requires id in s.journal.opsById
    ensures var j := Run(s, events).journal; id in j.opsById && j.opsById[id] == s.journal.opsById[id]
  {
    hide Step;
    if |events| > 0 {
      RunKeepsRecords(s, events[..|events| - 1], id);
      StepKeepsRecords(Run(s, events[..|events| - 1]), events[|events| - 1], id);
    }
  }

  /** Once an operation is committed, sending its id again, whatever happened in between and
      whatever else the message says, gives the recorded result and changes nothing. */
  lemma ResubmissionIsIdempotent(s: State, op: FileOp, mayWrite: bool, now: nat, freshId: string,
                                 events: seq<Event>, again: FileOp, mayWrite': bool, now': nat, freshId': string)
    requires Commits(s, op, mayWrite, now, freshId) && again.opId == op.opId
    ensures var (s1, r) := Process(s, op, mayWrite, now, freshId);
      r.Ack? && Process(Run(s1, events), again, mayWrite', now', freshId') == (Run(s1, events), r)
  {
    hide Prepare, StoredContent, Admission, Step;
    ProcessCases(s, op, mayWrite, now, freshId);
    RunKeepsRecords(Process(s, op, mayWrite, now, freshId).0, events, op.opId);
  }

  /** A refused operation changes nothing but the content table, and there it can only add the
      text whose hash it carries. */
  lemma RefusalChangesOnlyContent(s: State, op: FileOp, mayWrite: bool, now: nat, freshId: string)
    requires LogShape(s.journal) && !Process(s, op, mayWrite, now, freshId).1.Ack?
    ensures var s' := Process(s, op, mayWrite, now, freshId).0;
      && s' == s.(content := s'.content)
      && (s'.content == s.content || exists text :: s'.content == s.content[Digest(text) := text])
  {
    ProcessCases(s, op, mayWrite, now, freshId);
    hide Prepare, Admission;
    if op.inlineText.Some? {
      assert StoredContent(s.content, op) == s.content
        || StoredContent(s.content, op) == s.content[Digest(op.inlineText.value) := op.inlineText.value];
    }
  }
}
