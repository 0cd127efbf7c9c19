/** Two runs after which two live files share a path: bringing a deleted file back in place, by an
    update or by resolving its conflict, needs its path to be free. */
module PathCollisions {
  import opened Options
  import opened OrderedMaps
  import opened VersionVectors
  import opened Vault
  import opened VaultRuns
  import opened PathAllocation
  import opened SmallRuns

  const CREATE_G := Plain("3", "d", 3, "g", Create, map["d" := 1])
  const UPDATE_F := Plain("4", "d", 4, "f", Update, map["d" := 3])
  const OTHER_UPDATE_F := Plain("5", "e", 1, "f", Update, map["e" := 1])

  /** Device d creates f under "a", deletes it, creates g under "a", and then updates f. */
  const REUSED := CREATED + [Submit(DELETE_F, true, 0, "k")] + [Submit(CREATE_G, true, 0, "k")]
  const UPDATED := REUSED + [Submit(UPDATE_F, true, 0, "k")]

  /** Device d creates f under "a", device e updates it concurrently; d deletes f, creates g under "a",
      and then resolves the conflict on f. */
  const CONTESTED := [Register("d")] + [Register("e")] + [Submit(CREATE_F, true, 0, "k")]
                     + [Submit(OTHER_UPDATE_F, true, 0, "c")]
  const REUSED_IN_CONFLICT := CONTESTED + [Submit(DELETE_F, true, 0, "k")] + [Submit(CREATE_G, true, 0, "k")]
  const RESOLVED := REUSED_IN_CONFLICT + [ClaimConflict("d", true, "c")]
                    + [ResolveConflict(ResolveInput("c", "d", None, Some(""), map[], false), true)]

  /** The file f is deleted and g is live, both under "a". */
  ghost predicate Reused(s: State, file: StoredFile) {
    && s.files.at.Keys == {"f", "g"} && s.files.at["f"] == file && file.fileId == "f" && file.deleted
    && file.pathNormalized == "a" && file.activeUntil.None?
    && !s.files.at["g"].deleted && s.files.at["g"].pathNormalized == "a"
  }

  lemma Collide(s: State, file: StoredFile, s': State)
    requires Reused(s, file) && "f" in s'.files.at && s'.files.at == s.files.at["f" := s'.files.at["f"]]
    requires !s'.files.at["f"].deleted && s'.files.at["f"].pathNormalized == "a"
    ensures !Distinct(s'.files.at)
  {
    assert "g" in s'.files.at;
  }

  lemma NewFileAtA(op: FileOp)
    ensures var file := NewFile(op); file.fileId == op.fileId && !file.deleted && file.pathNormalized == "a"
  {
    PlainPath();
  }

  lemma CreatesG(s: State, file: StoredFile)
    requires OnlyF(s, file) && file.deleted
    ensures var r := Apply(s, CREATE_G, Lookup(s.files, "g"), "k");
      && "g" !in s.files.at && r.Success? && r.value.file == NewFile(CREATE_G) && r.value.conflicts == s.conflicts
  {
    assert "g"[0] != "f"[0];
    hide NewFile, Apply;
    Creates(s, CREATE_G, "k");
  }

  lemma ThenReused(s: State, file: StoredFile)
    requires Awaits(s, "d", 3) && Uuid("3") !in s.journal.opsById && OnlyF(s, file) && file.deleted
    requires file.activeUntil.None?
    ensures var s' := Step(s, Submit(CREATE_G, true, 0, "k"));
      && Reused(s', file) && s'.conflicts == s.conflicts && Awaits(s', "d", 4)
      && s'.journal.opsById.Keys == s.journal.opsById.Keys + {Uuid("3")}
  {
    hide NewFile, Step, Awaits, Apply;
    CreatesG(s, file);
    NewFileAtA(CREATE_G);
    Accepted(s, "3", "d", 3, "g", Create, map["d" := 1], "k");
  }

  /** The update of the deleted file brings it back. */
  lemma ThenUpdated(s: State, file: StoredFile)
    requires Awaits(s, "d", 4) && Uuid("4") !in s.journal.opsById && Reused(s, file) && file.conflictId.None?
    requires file.contentVV == map["d" := 1]
    ensures !Distinct(Step(s, Submit(UPDATE_F, true, 0, "k")).files.at)
  {
    hide Step, Awaits;
    assert Dominates(UPDATE_F.newContentVV.value, file.contentVV);
    Accepted(s, "4", "d", 4, "f", Update, map["d" := 3], "k");
    Collide(s, file, Step(s, Submit(UPDATE_F, true, 0, "k")));
  }

  lemma {:induction false} RunReused()
    ensures var s := Run(Initial, REUSED);
      && ValidRun(Initial, REUSED) && Reused(s, Trashed(NewFile(CREATE_F))) && s.conflicts == Empty()
      && Awaits(s, "d", 4) && s.journal.opsById.Keys == {Uuid("1"), Uuid("2"), Uuid("3")}
  {
    hide Step, Awaits, OnlyF, Reused, CREATED;
    RunCreated();
    var s := Run(Initial, CREATED);
    ThenDeleted(s, NewFile(CREATE_F));
    OneMore(CREATED, Submit(DELETE_F, true, 0, "k"));
    ThenReused(Step(s, Submit(DELETE_F, true, 0, "k")), Trashed(NewFile(CREATE_F)));
    OneMore(CREATED + [Submit(DELETE_F, true, 0, "k")], Submit(CREATE_G, true, 0, "k"));
  }

  /** An update of a deleted file whose path was given away leaves two live files under it. */
  lemma {:induction false} UpdateAfterReuseCollides()
    ensures ValidRun(Initial, UPDATED) && !Distinct(Run(Initial, UPDATED).files.at)
  {
    hide Step, Awaits, Distinct, Reused;
    RunReused();
    ThenUpdated(Run(Initial, REUSED), Trashed(NewFile(CREATE_F)));
    OneMore(REUSED, Submit(UPDATE_F, true, 0, "k"));
  }

  // ---- the same with a resolution ----

  /** Conflict "c" is open on f. */
  ghost predicate Contested(s: State) {
    && s.conflicts.at.Keys == {"c"} && s.conflicts.at["c"].fileId == "f" && s.conflicts.at["c"].status.Open?
    && s.conflicts.at["c"].claimedBy.None?
  }

  const CONTESTED_F := NewFile(CREATE_F).(conflictId := Some("c"))

  lemma ThenContested(s: State)
    requires OnlyF(s, NewFile(CREATE_F)) && s.conflicts == Empty() && Awaits(s, "e", 1)
    requires Uuid("5") !in s.journal.opsById
    ensures var s' := Step(s, Submit(OTHER_UPDATE_F, true, 0, "c"));
      && OnlyF(s', CONTESTED_F) && Contested(s') && s'.journal.opsById.Keys == s.journal.opsById.Keys + {Uuid("5")}
      && forall k :: Awaits(s, "d", k) ==> Awaits(s', "d", k)
  {
    hide Step, Awaits;
    assert "e"[0] != "d"[0];
    assert IsConcurrent(map["e" := 1], map["d" := 1]) by { assert "e" in map["e" := 1] && "d" in map["d" := 1]; }
    var file := NewFile(CREATE_F);
    assert file.contentVV == map["d" := 1] && file.conflictId.None? && !file.deleted;
    hide NewFile;
    Accepted(s, "5", "e", 1, "f", Update, map["e" := 1], "c");
  }

  /** Claimed and resolved, the conflict brings the file back. */
  lemma ThenResolved(s: State, file: StoredFile)
    requires Reused(s, file) && Contested(s)
    ensures var s' := Step(s, ClaimConflict("d", true, "c"));
      !Distinct(Step(s', ResolveConflict(ResolveInput("c", "d", None, Some(""), map[], false), true)).files.at)
  {
    var s' := Step(s, ClaimConflict("d", true, "c"));
    var input := ResolveInput("c", "d", None, Some(""), map[], false);
    hide ResolvedRefs, JoinedVV;
    Collide(s, file, Step(s', ResolveConflict(input, true)));
  }

  lemma {:induction false} RunContested()
    ensures var s := Run(Initial, CONTESTED);
      && ValidRun(Initial, CONTESTED) && OnlyF(s, CONTESTED_F) && Contested(s) && Awaits(s, "d", 2)
      && s.journal.opsById.Keys == {Uuid("1"), Uuid("5")}
  {
    var s := Step(Initial, Register("d"));
    Registered(s);
    FirstCreated(Step(s, Register("e")));
    hide Step, Awaits, OnlyF, Contested;
    ThenContested(Step(Step(s, Register("e")), Submit(CREATE_F, true, 0, "k")));
    OneMore([], Register("d"));
    assert [] + [Register("d")] == [Register("d")];
    OneMore([Register("d")], Register("e"));
    OneMore([Register("d")] + [Register("e")], Submit(CREATE_F, true, 0, "k"));
    OneMore([Register("d")] + [Register("e")] + [Submit(CREATE_F, true, 0, "k")], Submit(OTHER_UPDATE_F, true, 0, "c"));
  }

  lemma {:induction false} RunReusedInConflict()
    ensures var s := Run(Initial, REUSED_IN_CONFLICT);
      ValidRun(Initial, REUSED_IN_CONFLICT) && Reused(s, Trashed(CONTESTED_F)) && Contested(s)
  {
    hide Step, Awaits, OnlyF, Reused, CONTESTED;
    RunContested();
    assert "k"[0] != "c"[0];
    var s := Run(Initial, CONTESTED);
    ThenDeleted(s, CONTESTED_F);
    OneMore(CONTESTED, Submit(DELETE_F, true, 0, "k"));
    ThenReused(Step(s, Submit(DELETE_F, true, 0, "k")), Trashed(CONTESTED_F));
    OneMore(CONTESTED + [Submit(DELETE_F, true, 0, "k")], Submit(CREATE_G, true, 0, "k"));
  }

  /** So does the resolution of a conflict on such a file. */
  lemma {:induction false} ResolutionAfterReuseCollides()
    ensures ValidRun(Initial, RESOLVED) && !Distinct(Run(Initial, RESOLVED).files.at)
  {
    hide Step, Distinct, Reused, Contested, REUSED_IN_CONFLICT;
    RunReusedInConflict();
    ThenResolved(Run(Initial, REUSED_IN_CONFLICT), Trashed(CONTESTED_F));
    OneMore(REUSED_IN_CONFLICT, ClaimConflict("d", true, "c"));
    OneMore(REUSED_IN_CONFLICT + [ClaimConflict("d", true, "c")],
            ResolveConflict(ResolveInput("c", "d", None, Some(""), map[], false), true));
  }
}
