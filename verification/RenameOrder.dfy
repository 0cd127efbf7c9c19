/** Which files the reconciliation takes to be renamed: first come, first served, per content hash. */
module RenameOrder {
  import opened Options
  import opened Reconciliation

  lemma {:induction false} FirstFreeIsFirst(missing: seq<Indexed>, used: set<string>, hash: string, i: nat)
    requires i < |missing| && Offers(missing[i], hash) && missing[i].path !in used
    ensures var r := FirstFree(missing, used, hash);
      r.Some? && exists m: nat :: m <= i && missing[m] == r.value
  {
    if !(Offers(missing[0], hash) && missing[0].path !in used) {
      FirstFreeIsFirst(missing[1..], used, hash, i - 1);
      var r := FirstFree(missing[1..], used, hash);
      var m: nat :| m <= i - 1 && missing[1..][m] == r.value;
      assert missing[m + 1] == r.value;
    } else {
      assert missing[0] == FirstFree(missing, used, hash).value;
    }
  }

  ghost predicate TakenBy(rs: seq<Rename>, path: string, k: nat) {
    exists j :: 0 <= j < k && j < |rs| && rs[j].oldPath == path
  }

  ghost predicate Leads(rs: seq<Rename>, path: string, k: nat) {
    exists j :: 0 <= j < k && j < |rs| && rs[j].newPath == path
  }

  lemma TakenLater(r: Rename, rs: seq<Rename>, path: string, k: nat)
    requires TakenBy(rs, path, k)
    ensures TakenBy([r] + rs, path, k + 1)
  {
    var j :| 0 <= j < k && j < |rs| && rs[j].oldPath == path;
    assert ([r] + rs)[j + 1].oldPath == path;
  }

  /** A missing entry of the hash that stands before the one a rename takes has been taken before. */
  lemma {:induction false} EarlierIsTaken(appearing: seq<OnDisk>, missing: seq<Indexed>, used: set<string>, k: nat,
          i: nat, m: nat)
    requires DistinctIndexed(missing) && i < m < |missing|
    requires var rs := Matched(appearing, missing, used);
      k < |rs| && Offers(missing[i], rs[k].contentHash) && missing[m].path == rs[k].oldPath
    ensures missing[i].path in used || TakenBy(Matched(appearing, missing, used), missing[i].path, k)
  {
    var first := FirstFree(missing, used, appearing[0].contentHash);
    if first.None? {
      EarlierIsTaken(appearing[1..], missing, used, k, i, m);
    } else {
      var rest := Matched(appearing[1..], missing, used + {first.value.path});
      var r := Rename(first.value.fileId, first.value.path, appearing[0].path, appearing[0].contentHash);
      assert Matched(appearing, missing, used) == [r] + rest;
      if k == 0 {
        if missing[i].path !in used { FirstFreeIsFirst(missing, used, r.contentHash, i); }
      } else {
        assert ([r] + rest)[k] == rest[k - 1];
        EarlierIsTaken(appearing[1..], missing, used + {first.value.path}, k - 1, i, m);
        if TakenBy(rest, missing[i].path, k - 1) { TakenLater(r, rest, missing[i].path, k - 1); }
        assert ([r] + rest)[0].oldPath == first.value.path;
      }
    }
  }

  /** Each rename pairs a missing entry with an appearing one of the same hash; the renames come in the order
      of the disk. */
  lemma {:induction false} RenamesPair(appearing: seq<OnDisk>, missing: seq<Indexed>, used: set<string>, k: nat)
    requires k < |Matched(appearing, missing, used)|
    ensures var r := Matched(appearing, missing, used)[k];
      exists e, d :: e in missing && d in appearing && e.contentHash == Some(d.contentHash) && d.contentHash != ""
        && r == Rename(e.fileId, e.path, d.path, d.contentHash)
  {
    var first := FirstFree(missing, used, appearing[0].contentHash);
    if first.None? {
      RenamesPair(appearing[1..], missing, used, k);
    } else if k > 0 {
      RenamesPair(appearing[1..], missing, used + {first.value.path}, k - 1);
    } else {
      assert first.value in missing && appearing[0] in appearing;
    }
  }

  /** Once no entry of a hash is free, none becomes free. */
  lemma {:induction false} StaysUsedUp(appearing: seq<OnDisk>, missing: seq<Indexed>, used: set<string>, hash: string,
          k: nat)
    requires FirstFree(missing, used, hash).None? && k < |Matched(appearing, missing, used)|
    ensures Matched(appearing, missing, used)[k].contentHash != hash
  {
    var first := FirstFree(missing, used, appearing[0].contentHash);
    if first.None? {
      StaysUsedUp(appearing[1..], missing, used, hash, k);
    } else if k > 0 {
      MoreUsed(missing, used, first.value.path, hash);
      StaysUsedUp(appearing[1..], missing, used + {first.value.path}, hash, k - 1);
    }
  }

  lemma {:induction false} MoreUsed(missing: seq<Indexed>, used: set<string>, path: string, hash: string)
    requires FirstFree(missing, used, hash).None?
    ensures FirstFree(missing, used + {path}, hash).None?
  {
    if missing != [] { MoreUsed(missing[1..], used, path, hash); }
  }

  /** A file of the hash that appears before one that is renamed is renamed, and before it. */
  lemma {:induction false} EarlierIsRenamed(appearing: seq<OnDisk>, missing: seq<Indexed>, used: set<string>, k: nat,
          i: nat, m: nat)
    requires i < m < |appearing| && DistinctOnDisk(appearing)
    requires var rs := Matched(appearing, missing, used);
      k < |rs| && appearing[i].contentHash == rs[k].contentHash && appearing[m].path == rs[k].newPath
    ensures Leads(Matched(appearing, missing, used), appearing[i].path, k)
  {
    var first := FirstFree(missing, used, appearing[0].contentHash);
    assert forall x :: 0 < x < |appearing| ==> appearing[1..][x - 1] == appearing[x];
    if first.None? {
      if i == 0 {
        StaysUsedUp(appearing[1..], missing, used, appearing[0].contentHash, k);
      } else {
        EarlierIsRenamed(appearing[1..], missing, used, k, i - 1, m - 1);
      }
    } else {
      var rest := Matched(appearing[1..], missing, used + {first.value.path});
      var r := Rename(first.value.fileId, first.value.path, appearing[0].path, appearing[0].contentHash);
      assert Matched(appearing, missing, used) == [r] + rest && ([r] + rest)[0].newPath == appearing[0].path;
      if i > 0 {
        assert k > 0 && ([r] + rest)[k] == rest[k - 1];
        EarlierIsRenamed(appearing[1..], missing, used + {first.value.path}, k - 1, i - 1, m - 1);
        var j :| 0 <= j < k - 1 && j < |rest| && rest[j].newPath == appearing[i].path;
        assert ([r] + rest)[j + 1].newPath == appearing[i].path;
      }
    }
  }

  /** Every rename pairs a missing entry with an appearing file of the same content. Among those of one hash the
      missing entries are used up in the order of the index and the files are served in the order of the disk. */
  lemma FirstComeFirstServed(indexed: seq<Indexed>, disk: seq<OnDisk>, k: nat)
    requires DistinctIndexed(indexed) && DistinctOnDisk(disk) && k < |PlanOf(indexed, disk).renames|
    ensures var rs, missing, files := PlanOf(indexed, disk).renames, Missing(indexed, disk), Appearing(indexed, disk);
      && (exists e, d :: e in missing && d in files && e.contentHash == Some(d.contentHash) && d.contentHash != ""
            && rs[k] == Rename(e.fileId, e.path, d.path, d.contentHash))
      && (forall i: nat, m: nat | i < m < |missing| && missing[m].path == rs[k].oldPath ::
            missing[i].contentHash == Some(rs[k].contentHash) ==> TakenBy(rs, missing[i].path, k))
      && (forall i: nat, m: nat | i < m < |files| && files[m].path == rs[k].newPath ::
            files[i].contentHash == rs[k].contentHash ==> Leads(rs, files[i].path, k))
  {
    var rs, missing, files := PlanOf(indexed, disk).renames, Missing(indexed, disk), Appearing(indexed, disk);
    assert rs == Matched(files, missing, {});
    FilterDistinctIndexed(indexed, (e: Indexed) => e.path !in DiskPaths(disk));
    FilterDistinct(disk, (e: OnDisk) => e.path !in IndexedPaths(indexed));
    RenamesPair(files, missing, {}, k);
    hide PlanOf, Matched, Missing, Appearing, TakenBy, Leads;
    forall i: nat, m: nat | i < m < |missing| && missing[m].path == rs[k].oldPath
        && missing[i].contentHash == Some(rs[k].contentHash)
      ensures TakenBy(rs, missing[i].path, k)
    {
      EarlierIsTaken(files, missing, {}, k, i, m);
    }
    forall i: nat, m: nat | i < m < |files| && files[m].path == rs[k].newPath
        && files[i].contentHash == rs[k].contentHash
      ensures Leads(rs, files[i].path, k)
    {
      EarlierIsRenamed(files, missing, {}, k, i, m);
    }
  }
}
