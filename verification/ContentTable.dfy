/** The content table over all runs: every entry is the text its hash stands for, texts that were
    sent with an accepted operation are in it, and nothing in it ever changes or goes away. */
module ContentTable {
  import opened Options
  import opened VersionVectors
  import opened Paths
  import opened Vault
  import opened VaultRuns

  ghost predicate Addressed(content: map<Hash, string>) {
    forall h :: h in content ==> h == Digest(content[h])
  }

  ghost predicate Retains(content: map<Hash, string>, content': map<Hash, string>) {
    forall h :: h in content ==> h in content' && content'[h] == content[h]
  }

  lemma StoredKeeps(content: map<Hash, string>, op: FileOp)
    requires Addressed(content)
    ensures Addressed(StoredContent(content, op)) && Retains(content, StoredContent(content, op))
  {
    hide ValidateShape;
  }

  lemma ResolveKeeps(s: State, input: ResolveInput, mayWrite: bool)
    requires Addressed(s.content)
    ensures Addressed(Resolve(s, input, mayWrite).0.content)
    ensures Retains(s.content, Resolve(s, input, mayWrite).0.content)
  {
    hide ResolvedContent, ResolvedRefs, JoinedVV;
  }

  lemma StepKeepsContent(s: State, e: Event)
    requires Addressed(s.content)
    ensures Addressed(Step(s, e).content) && Retains(s.content, Step(s, e).content)
  {
    hide Process, Resolve, StoredContent, Prepare, Admission, Record;
    if e.Submit? {
      ProcessCases(s, e.op, e.mayWrite, e.now, e.freshId);
      StoredKeeps(s.content, e.op);
    } else if e.ResolveConflict? {
      ResolveKeeps(s, e.input, e.mayWrite);
    }
  }

  lemma {:induction false} RunKeepsContent(s: State, events: seq<Event>)
    requires Addressed(s.content)
    ensures Addressed(Run(s, events).content) && Retains(s.content, Run(s, events).content)
  {
    hide Step;
    if |events| > 0 {
      RunKeepsContent(s, events[..|events| - 1]);
      StepKeepsContent(Run(s, events[..|events| - 1]), events[|events| - 1]);
    }
  }

  lemma CommittedText(s: State, op: FileOp, now: nat, freshId: string)
    requires Prepare(s, op, now, freshId).Success? && CarriesHash(op) && op.inlineText.Some?
    ensures op.contentHash.value == Digest(op.inlineText.value)
    ensures StoredContent(s.content, op) == s.content[Digest(op.inlineText.value) := op.inlineText.value]
    ensures Prepare(s, op, now, freshId).value.conflictId.None? ==>
      Prepare(s, op, now, freshId).value.file.contentHash == Some(Digest(op.inlineText.value))
  {
    hide ValidateShape, ValidateBlob, UniquePath, NormalizePath, CaseFold, Dominates, Join, IsConcurrent,
         CreateConflict, UpdatedRefs, SideRef;
  }

  /** The text of an accepted content operation is stored under its hash, becomes the file's content
      unless it collided, and can be read back after any further run. */
  lemma {:induction false} AcceptedTextStaysReadable(s: State, op: FileOp, mayWrite: bool, now: nat, freshId: string,
          later: seq<Event>)
    requires Reachable(s) && Commits(s, op, mayWrite, now, freshId) && CarriesHash(op) && op.inlineText.Some?
    ensures var (s', r) := Process(s, op, mayWrite, now, freshId);
      var text := op.inlineText.value;
      && (r.Ack? && r.conflictId.None? ==>
            op.fileId in s'.files.at && s'.files.at[op.fileId].contentHash == Some(Digest(text)))
      && Digest(text) in Run(s', later).content && Run(s', later).content[Digest(text)] == text
  {
    ReachableAddressed(s);
    ProcessCases(s, op, mayWrite, now, freshId);
    CommittedText(s, op, now, freshId);
    hide Reachable, Process, Prepare, StoredContent, Admission, Record, Run;
    RunKeepsContent(Process(s, op, mayWrite, now, freshId).0, later);
  }

  /** In every reachable state the table is addressed by content. */
  lemma {:induction false} ReachableAddressed(s: State)
    requires Reachable(s)
    ensures Addressed(s.content)
  {
    hide Step;
    var events :| ValidRun(Initial, events) && s == Run(Initial, events);
    RunKeepsContent(Initial, events);
  }
}
