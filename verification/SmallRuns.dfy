/** The pieces of the concrete runs that show where a property needs its condition: short requests of
    devices and files with one-letter names, under the path "a". */
module SmallRuns {
  import opened Options
  import opened OrderedMaps
  import opened VersionVectors
  import opened PathClocks
  import opened Paths
  import opened Vault
  import opened VaultRuns

  // ---- the path "a" ----

  lemma OneSegment(c: char, separator: char)
    requires c != separator
    ensures SplitOn([c], separator) == [[c]]
  {
    assert [c][1..] == "" && SplitOn("", separator) == [""];
    assert [c] + "" == [c] && [""][1..] == [];
  }

  lemma PlainPath()
    ensures NormalizePath("a") == Some("a") && CaseFold("a") == "a"
  {
    assert Slashes("a") == "a";
    assert Shaped("a") == "a";
    assert "a"[1..] == "";
    assert ByteLength("a") == CharBytes('a') + ByteLength("");
    OneSegment('a', '/');
    OneSegment('a', '.');
    assert CaseFold("a") == "a";
    assert |"a"| == 1 && |"con"| == 3;
    assert "a" !in WINDOWS_RESERVED;
    assert ValidSegment("a");
  }

  // ---- requests ----

  /** Operation n of device d on file f, without content. */
  function Plain(id: string, d: string, n: int, f: string, kind: OpKind, vv: VersionVector): FileOp {
    FileOp(Uuid(id), d, n, f, kind, Note, None, Some(vv), None, None, false, None, None,
           if kind.Create? then Some("a") else None,
           None)
  }

  /** The server waits for operation n of the device. */
  ghost predicate Awaits(s: State, d: string, n: int) {
    d in s.journal.devices && !s.journal.devices[d].revoked && s.journal.devices[d].lastDeviceSeq + 1 == n
  }

  ghost predicate Fresh(s: State, op: FileOp) {
    op.opId !in s.journal.opsById && op.opId != Uuid("")
  }

  /** A request for content meets neither a room nor a conflict on its file. */
  ghost predicate Free(s: State, op: FileOp) {
    op.fileId in s.files.at && !op.kind.Delete? ==>
      s.files.at[op.fileId].activeUntil.None? && s.files.at[op.fileId].conflictId.None?
  }

  lemma PlainIsAdmitted(s: State, id: string, d: string, n: int, f: string, kind: OpKind, vv: VersionVector,
          freshId: string)
    requires |d| == |f| == 1 && 1 <= n < 10 && !kind.Rename?
    requires var op := Plain(id, d, n, f, kind, vv); Awaits(s, d, n) && Fresh(s, op) && Free(s, op)
    ensures var op := Plain(id, d, n, f, kind, vv);
      && !Synthetic(op) && Admission(s.journal, op, true).None?
      && Prepare(s, op, 0, freshId) == Apply(s, op, Lookup(s.files, f), freshId)
      && StoredContent(s.content, op) == s.content
  {
    PlainPath();
    assert CollabDevice(f) != d by { assert |CollabDevice(f)| == 8; }
    hide NormalizePath, CaseFold, Apply;
    var op := Plain(id, d, n, f, kind, vv);
    assert Validate(s, op).None?;
    assert f in s.files.at && ContentKind(kind) ==>
      !ActiveAt(s.files.at[f], 0) && !PresentText(s.files.at[f].conflictId);
  }

  /** What a next, fresh and unhindered request writes. */
  lemma Accepted(s: State, id: string, d: string, n: int, f: string, kind: OpKind, vv: VersionVector, freshId: string)
    requires |d| == |f| == 1 && 1 <= n < 10 && !kind.Rename?
    requires var op := Plain(id, d, n, f, kind, vv);
      && Awaits(s, d, n) && Fresh(s, op) && Free(s, op) && Apply(s, op, Lookup(s.files, f), freshId).Success?
    ensures var op := Plain(id, d, n, f, kind, vv);
      var e, s' := Apply(s, op, Lookup(s.files, f), freshId).value, Step(s, Submit(op, true, 0, freshId));
      && s'.files == Set(s.files, f, e.file) && s'.conflicts == e.conflicts && s'.content == s.content
      && s'.blobs == s.blobs && Awaits(s', d, n + 1)
      && s'.journal.opsById.Keys == s.journal.opsById.Keys + {Uuid(id)}
      && forall x, k :: x != d && Awaits(s, x, k) ==> Awaits(s', x, k)
  {
    var op := Plain(id, d, n, f, kind, vv);
    PlainIsAdmitted(s, id, d, n, f, kind, vv, freshId);
    ProcessCases(s, op, true, 0, freshId);
    hide Apply, InsertBySeq, Process, Admission, Prepare, Validate, Free;
  }

  /** Nobody but f itself sits at the path. */
  lemma Unoccupied(files: OrderedMap<string, StoredFile>, f: string)
    requires forall g :: g in files.at && g != f ==> files.at[g].deleted
    requires f in files.at ==> files.at[f].fileId == f
    ensures UniquePath(files, "a", f) == Some("a")
  {
    assert Candidate("a", 0) == "a" && !Taken(files, "a", f);
  }

  /** The file as it is created, under the path "a". */
  function NewFile(op: FileOp): StoredFile {
    NewStoredFile(op, "a", PathClock(1, op.deviceId))
  }

  lemma Creates(s: State, op: FileOp, freshId: string)
    requires op.kind.Create? && op.newPath == Some("a") && op.pathClock.None?
    requires op.fileId !in s.files.at && forall g :: g in s.files.at ==> s.files.at[g].deleted
    ensures var r := Apply(s, op, Lookup(s.files, op.fileId), freshId);
      r.Success? && r.value.file == NewFile(op) && r.value.conflicts == s.conflicts
  {
    PlainPath();
    Unoccupied(s.files, op.fileId);
    hide NormalizePath, CaseFold, UniquePath, UpdatedRefs;
  }

  // ---- runs ----

  lemma OneMore(events: seq<Event>, e: Event)
    ensures Run(Initial, events + [e]) == Step(Run(Initial, events), e)
    ensures ValidRun(Initial, events + [e]) <==> ValidRun(Initial, events) && Enabled(Run(Initial, events), e)
  {
    assert (events + [e])[..|events|] == events;
    hide Step;
  }

  // ---- file f is created under "a", then deleted ----

  const CREATE_F := Plain("1", "d", 1, "f", Create, map["d" := 1])
  const DELETE_F := Plain("2", "d", 2, "f", Delete, map["d" := 2])
  const CREATED := [Register("d")] + [Submit(CREATE_F, true, 0, "k")]

  /** The only file is f, under "a". */
  ghost predicate OnlyF(s: State, file: StoredFile) {
    s.files.at == map["f" := file] && file.fileId == "f" && file.path == file.pathNormalized == "a"
  }

  lemma Registered(s: State)
    requires s == Step(Initial, Register("d"))
    ensures Awaits(s, "d", 1) && s.journal.opsById == map[] && s.files == Empty() && s.conflicts == Empty()
    ensures var s' := Step(s, Register("e"));
      && Awaits(s', "d", 1) && Awaits(s', "e", 1) && s'.journal.opsById == map[] && s'.files == Empty()
      && s'.conflicts == Empty()
  {
    assert "e"[0] != "d"[0];
  }

  lemma FirstCreated(s: State)
    requires Awaits(s, "d", 1) && s.journal.opsById == map[] && s.files == Empty() && s.conflicts == Empty()
    ensures var s' := Step(s, Submit(CREATE_F, true, 0, "k"));
      && OnlyF(s', NewFile(CREATE_F)) && s'.conflicts == Empty()
      && Awaits(s', "d", 2) && s'.journal.opsById.Keys == {Uuid("1")}
      && forall x, k :: x != "d" && Awaits(s, x, k) ==> Awaits(s', x, k)
  {
    PlainPath();
    Creates(s, CREATE_F, "k");
    hide Apply, Step, Awaits;
    Accepted(s, "1", "d", 1, "f", Create, map["d" := 1], "k");
  }

  lemma {:induction false} RunCreated()
    ensures var s := Run(Initial, CREATED);
      && ValidRun(Initial, CREATED) && OnlyF(s, NewFile(CREATE_F)) && s.conflicts == Empty() && Awaits(s, "d", 2)
      && s.journal.opsById.Keys == {Uuid("1")}
  {
    var s := Step(Initial, Register("d"));
    Registered(s);
    FirstCreated(s);
    hide Step, Awaits, OnlyF;
    OneMore([], Register("d"));
    assert [] + [Register("d")] == [Register("d")];
    OneMore([Register("d")], Submit(CREATE_F, true, 0, "k"));
  }

  function Trashed(file: StoredFile): StoredFile {
    file.(deleted := true, deleteVV := Some(map["d" := 2]))
  }

  lemma ThenDeleted(s: State, file: StoredFile)
    requires Awaits(s, "d", 2) && Uuid("2") !in s.journal.opsById && OnlyF(s, file)
    ensures var s' := Step(s, Submit(DELETE_F, true, 0, "k"));
      && OnlyF(s', Trashed(file)) && s'.conflicts == s.conflicts && Awaits(s', "d", 3)
      && s'.journal.opsById.Keys == s.journal.opsById.Keys + {Uuid("2")}
  {
    hide Step, Awaits;
    Accepted(s, "2", "d", 2, "f", Delete, map["d" := 2], "k");
  }
}
