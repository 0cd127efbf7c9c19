/** Reconciling the local index with the disk (apps/plugin/src/watcher/reconciliation.ts): which
    files were renamed, created, updated or deleted while nobody watched. */
module Reconciliation {
  import opened Basics
  import opened Options

  datatype Indexed = Indexed(fileId: string, path: string, contentHash: Option<string>, size: nat)
  datatype OnDisk = OnDisk(path: string, contentHash: string, size: nat)
  datatype Rename = Rename(fileId: string, oldPath: string, newPath: string, contentHash: string)
  datatype Plan = Plan(creates: seq<OnDisk>, updates: seq<(Indexed, OnDisk)>, deletes: seq<Indexed>,
          renames: seq<Rename>)

  // ---- the plan as a value ----

  function Filter<T(!new)>(s: seq<T>, keep: T -> bool): (r: seq<T>)
    ensures forall x :: x in r <==> x in s && keep(x)
  {
    if s == [] then [] else (if keep(s[0]) then [s[0]] else []) + Filter(s[1..], keep)
  }

  function IndexedPaths(s: seq<Indexed>): set<string> { set e | e in s :: e.path }
  function DiskPaths(s: seq<OnDisk>): set<string> { set e | e in s :: e.path }
  function OldPaths(s: seq<Rename>): set<string> { set r | r in s :: r.oldPath }
  function NewPaths(s: seq<Rename>): set<string> { set r | r in s :: r.newPath }

  /** A later entry replaces an earlier one of the same path. */
  function ByPath(s: seq<Indexed>): (m: map<string, Indexed>)
    ensures m.Keys == IndexedPaths(s)
  {
    if s == [] then map[] else ByPath(s[..|s| - 1])[s[|s| - 1].path := s[|s| - 1]]
  }

  function Missing(indexed: seq<Indexed>, disk: seq<OnDisk>): seq<Indexed> {
    Filter(indexed, (e: Indexed) => e.path !in DiskPaths(disk))
  }

  function Appearing(indexed: seq<Indexed>, disk: seq<OnDisk>): seq<OnDisk> {
    Filter(disk, (e: OnDisk) => e.path !in IndexedPaths(indexed))
  }

  predicate Offers(m: Indexed, hash: string) {
    hash != "" && m.contentHash == Some(hash)
  }

  /** The first missing entry of the hash that no rename has used yet. */
  function FirstFree(missing: seq<Indexed>, used: set<string>, hash: string): (r: Option<Indexed>)
    ensures r.Some? ==> r.value in missing && Offers(r.value, hash) && r.value.path !in used
  {
    if missing == [] then None
    else if Offers(missing[0], hash) && missing[0].path !in used then Some(missing[0])
    else FirstFree(missing[1..], used, hash)
  }

  function Matched(appearing: seq<OnDisk>, missing: seq<Indexed>, used: set<string>): seq<Rename> {
    if appearing == [] then []
    else
      var m := FirstFree(missing, used, appearing[0].contentHash);
      if m.None? then Matched(appearing[1..], missing, used)
      else [Rename(m.value.fileId, m.value.path, appearing[0].path, appearing[0].contentHash)]
           + Matched(appearing[1..], missing, used + {m.value.path})
  }

  predicate Differs(e: Indexed, d: OnDisk) {
    e.contentHash != Some(d.contentHash) || e.size != d.size
  }

  function Updates(indexed: map<string, Indexed>, disk: seq<OnDisk>): seq<(Indexed, OnDisk)> {
    if disk == [] then []
    else (if disk[0].path in indexed && Differs(indexed[disk[0].path], disk[0]) then
      [(indexed[disk[0].path], disk[0])] else [])
         + Updates(indexed, disk[1..])
  }

  function PlanOf(indexed: seq<Indexed>, disk: seq<OnDisk>): Plan {
    var missing, appearing := Missing(indexed, disk), Appearing(indexed, disk);
    var renames := Matched(appearing, missing, {});
    Plan(Filter(appearing, (d: OnDisk) => d.path !in NewPaths(renames)),
         Updates(ByPath(indexed), disk),
         Filter(missing, (e: Indexed) => e.path !in OldPaths(renames)),
         renames)
  }

  // ---- the planner ----

  function Bucket(buckets: map<string, seq<Indexed>>, hash: string): seq<Indexed> {
    if hash in buckets then buckets[hash] else []
  }

  function OfHash(missing: seq<Indexed>, hash: string): seq<Indexed> {
    Filter(missing, (e: Indexed) => Offers(e, hash))
  }

  lemma {:induction false} FilterAppend<T(!new)>(s: seq<T>, x: T, keep: T -> bool)
    ensures Filter(s + [x], keep) == Filter(s, keep) + (if keep(x) then [x] else [])
  {
    if s != [] {
      FilterAppend(s[1..], x, keep);
      assert (s + [x])[1..] == s[1..] + [x];
    }
  }

  lemma {:induction false} FirstFreeInBucket(missing: seq<Indexed>, used: set<string>, hash: string)
    ensures FirstFree(OfHash(missing, hash), used, hash) == FirstFree(missing, used, hash)
  {
    if missing != [] {
      FirstFreeInBucket(missing[1..], used, hash);
      var rest := OfHash(missing[1..], hash);
      if Offers(missing[0], hash) {
        assert OfHash(missing, hash) == [missing[0]] + rest;
        assert ([missing[0]] + rest)[1..] == rest;
      } else {
        assert OfHash(missing, hash) == [] + rest == rest;
      }
    }
  }

  lemma {:induction false} MatchedAppend(appearing: seq<OnDisk>, d: OnDisk, missing: seq<Indexed>, used: set<string>)
    ensures var before := Matched(appearing, missing, used);
      var m := FirstFree(missing, used + OldPaths(before), d.contentHash);
      Matched(appearing + [d], missing, used) ==
        before + (if m.None? then [] else [Rename(m.value.fileId, m.value.path, d.path, d.contentHash)])
  {
    if appearing == [] {
      assert used + OldPaths([]) == used;
      assert ([] + [d])[1..] == [];
    } else {
      assert (appearing + [d])[1..] == appearing[1..] + [d];
      var m := FirstFree(missing, used, appearing[0].contentHash);
      if m.None? {
        MatchedAppend(appearing[1..], d, missing, used);
      } else {
        MatchedAppend(appearing[1..], d, missing, used + {m.value.path});
        var rest := Matched(appearing[1..], missing, used + {m.value.path});
        assert used + {m.value.path} + OldPaths(rest) == used + OldPaths(Matched(appearing, missing, used));
      }
    }
  }

  ghost predicate Bucketed(buckets: map<string, seq<Indexed>>, missing: seq<Indexed>) {
    forall h :: Bucket(buckets, h) == OfHash(missing, h)
  }

  lemma BucketedMore(buckets: map<string, seq<Indexed>>, missing: seq<Indexed>, item: Indexed)
    requires Bucketed(buckets, missing)
    ensures Bucketed(if item.contentHash.Some? && item.contentHash.value != ""
                     then buckets[item.contentHash.value := Bucket(buckets, item.contentHash.value) + [item]]
                            else buckets, missing + [item])
  {
    forall h ensures OfHash(missing + [item], h) == OfHash(missing, h) + (if Offers(item, h) then [item] else []) {
      FilterAppend(missing, item, (e: Indexed) => Offers(e, h));
    }
    hide OfHash;
  }

  method BuildBuckets(missing: seq<Indexed>) returns (buckets: map<string, seq<Indexed>>)
    ensures Bucketed(buckets, missing)
  {
    buckets := map[];
    assert Bucketed(buckets, []);
    hide Bucketed;
    for i := 0 to |missing|
      invariant Bucketed(buckets, missing[..i])
    {
      var item := missing[i];
      assert missing[..i + 1] == missing[..i] + [item];
      BucketedMore(buckets, missing[..i], item);
      if item.contentHash.Some? && item.contentHash.value != "" {
        buckets := buckets[item.contentHash.value := Bucket(buckets, item.contentHash.value) + [item]];
      }
    }
    assert missing[..|missing|] == missing;
  }

  method MatchRenames(missing: seq<Indexed>, appearing: seq<OnDisk>)
    returns (renames: seq<Rename>, consumedMissing: set<string>, consumedAppearing: set<string>)
    ensures renames == Matched(appearing, missing, {})
    ensures consumedMissing == OldPaths(renames) && consumedAppearing == NewPaths(renames)
  {
    var missingByHash := BuildBuckets(missing);
    renames, consumedMissing, consumedAppearing := [], {}, {};
    for i := 0 to |appearing|
      invariant renames == Matched(appearing[..i], missing, {})
      invariant consumedMissing == OldPaths(renames) && consumedAppearing == NewPaths(renames)
    {
      var candidate := appearing[i];
      assert appearing[..i + 1] == appearing[..i] + [candidate];
      MatchedAppend(appearing[..i], candidate, missing, {});
      assert {} + consumedMissing == consumedMissing;
      FirstFreeInBucket(missing, consumedMissing, candidate.contentHash);
      var found := FirstFree(Bucket(missingByHash, candidate.contentHash), consumedMissing, candidate.contentHash);
      if found.None? { continue; }
      consumedMissing := consumedMissing + {found.value.path};
      consumedAppearing := consumedAppearing + {candidate.path};
      renames := renames + [Rename(found.value.fileId, found.value.path, candidate.path, candidate.contentHash)];
    }
    assert appearing[..|appearing|] == appearing;
  }

  method PlanReconciliation(indexed: seq<Indexed>, disk: seq<OnDisk>) returns (plan: Plan)
    ensures plan == PlanOf(indexed, disk)
  {
    var indexedByPath := ByPath(indexed);
    var diskByPath := DiskPaths(disk);
    var missing := Filter(indexed, (e: Indexed) => e.path !in diskByPath);
    var appearing := Filter(disk, (e: OnDisk) => e.path !in indexedByPath.Keys);
    SameFilter(indexed, (e: Indexed) => e.path !in diskByPath, (e: Indexed) => e.path !in DiskPaths(disk));
    SameFilter(disk, (e: OnDisk) => e.path !in indexedByPath.Keys, (e: OnDisk) => e.path !in IndexedPaths(indexed));
    var renames, consumedMissing, consumedAppearing := MatchRenames(missing, appearing);
    var creates := Filter(appearing, (d: OnDisk) => d.path !in consumedAppearing);
    var deletes := Filter(missing, (e: Indexed) => e.path !in consumedMissing);
    SameFilter(appearing, (d: OnDisk) => d.path !in consumedAppearing, (d: OnDisk) => d.path !in NewPaths(renames));
    SameFilter(missing, (e: Indexed) => e.path !in consumedMissing, (e: Indexed) => e.path !in OldPaths(renames));
    return Plan(creates, Updates(indexedByPath, disk), deletes, renames);
  }

  lemma {:induction false} SameFilter<T(!new)>(s: seq<T>, p: T -> bool, q: T -> bool)
    requires forall x :: x in s ==> p(x) == q(x)
    ensures Filter(s, p) == Filter(s, q)
  {
    if s != [] { SameFilter(s[1..], p, q); }
  }

  // ---- facts about the matching ----

  ghost predicate DistinctIndexed(s: seq<Indexed>) {
    forall i, k :: 0 <= i < k < |s| ==> s[i].path != s[k].path
  }

  ghost predicate DistinctOnDisk(s: seq<OnDisk>) {
    forall i, k :: 0 <= i < k < |s| ==> s[i].path != s[k].path
  }

  ghost predicate DistinctRenames(s: seq<Rename>) {
    forall i, k :: 0 <= i < k < |s| ==> s[i].oldPath != s[k].oldPath && s[i].newPath != s[k].newPath
  }

  /** The rename carries one missing entry to one appearing entry of the same, non-empty hash. */
  ghost predicate Moves(r: Rename, e: Indexed, d: OnDisk) {
    r == Rename(e.fileId, e.path, d.path, d.contentHash) && Offers(e, d.contentHash)
  }

  ghost predicate Justified(r: Rename, missing: seq<Indexed>, appearing: seq<OnDisk>, used: set<string>) {
    exists e, d :: e in missing && d in appearing && Moves(r, e, d) && e.path !in used
  }

  lemma JustifiedMore(r: Rename, missing: seq<Indexed>, appearing: seq<OnDisk>, used: set<string>, more: set<string>)
    requires appearing != [] && Justified(r, missing, appearing[1..], used + more)
    ensures Justified(r, missing, appearing, used) && r.oldPath !in more
  {
  }

  lemma ConsRenames(r: Rename, rest: seq<Rename>, missing: seq<Indexed>, appearing: seq<OnDisk>, used: set<string>)
    requires DistinctRenames(rest) && Justified(r, missing, appearing, used)
    requires forall k :: 0 <= k < |rest| ==>
      Justified(rest[k], missing, appearing, used) && rest[k].oldPath != r.oldPath && rest[k].newPath != r.newPath
    ensures DistinctRenames([r] + rest)
    ensures forall k :: 0 <= k < |rest| + 1 ==> Justified(([r] + rest)[k], missing, appearing, used)
  {
    hide Justified;
  }

  lemma RestJustified(x: Rename, missing: seq<Indexed>, appearing: seq<OnDisk>, used: set<string>, more: set<string>)
    requires DistinctOnDisk(appearing) && appearing != [] && Justified(x, missing, appearing[1..], used + more)
    ensures Justified(x, missing, appearing, used) && x.oldPath !in more && x.newPath != appearing[0].path
  {
    JustifiedMore(x, missing, appearing, used, more);
  }

  lemma {:induction false} MatchedIsJustified(appearing: seq<OnDisk>, missing: seq<Indexed>, used: set<string>)
    requires DistinctOnDisk(appearing)
    ensures var rs := Matched(appearing, missing, used);
      DistinctRenames(rs) && forall k :: 0 <= k < |rs| ==> Justified(rs[k], missing, appearing, used)
  {
    if appearing != [] {
      var m := FirstFree(missing, used, appearing[0].contentHash);
      var more := if m.None? then {} else {m.value.path};
      var rest := Matched(appearing[1..], missing, used + more);
      assert used + {} == used;
      MatchedIsJustified(appearing[1..], missing, used + more);
      hide Justified, DistinctRenames;
      forall k | 0 <= k < |rest|
        ensures Justified(rest[k], missing, appearing, used) && rest[k].oldPath !in more
        ensures rest[k].newPath != appearing[0].path
      {
        RestJustified(rest[k], missing, appearing, used, more);
      }
      hide DistinctOnDisk;
      if m.Some? {
        MatchJustified(m.value, appearing[0], missing, appearing, used);
        var r := Rename(m.value.fileId, m.value.path, appearing[0].path, appearing[0].contentHash);
        assert Matched(appearing, missing, used) == [r] + rest;
        ConsRenames(r, rest, missing, appearing, used);
      }
    }
  }

  lemma MatchJustified(e: Indexed, d: OnDisk, missing: seq<Indexed>, appearing: seq<OnDisk>, used: set<string>)
    requires e in missing && d in appearing && Offers(e, d.contentHash) && e.path !in used
    ensures Justified(Rename(e.fileId, e.path, d.path, d.contentHash), missing, appearing, used)
  {
    assert Moves(Rename(e.fileId, e.path, d.path, d.contentHash), e, d);
  }

  // ---- applying the plan ----

  type Hashes = map<string, Option<string>>

  ghost function IndexHashes(s: seq<Indexed>): Hashes {
    if s == [] then map[] else IndexHashes(s[..|s| - 1])[s[|s| - 1].path := s[|s| - 1].contentHash]
  }

  ghost function DiskHashes(s: seq<OnDisk>): Hashes {
    if s == [] then map[] else DiskHashes(s[..|s| - 1])[s[|s| - 1].path := Some(s[|s| - 1].contentHash)]
  }

  /** A rename carries the entry, with the hash the index has for it, to the new path. */
  ghost function ApplyRenames(m: Hashes, rs: seq<Rename>): Hashes {
    if rs == [] then m
    else
      var before, r := ApplyRenames(m, rs[..|rs| - 1]), rs[|rs| - 1];
      if r.oldPath in before then (before - {r.oldPath})[r.newPath := before[r.oldPath]] else before
  }

  ghost function ApplyUpdates(m: Hashes, us: seq<(Indexed, OnDisk)>): Hashes
    decreases us
  {
    if us == [] then m else ApplyUpdates(m[us[0].1.path := Some(us[0].1.contentHash)], us[1..])
  }

  ghost function Applied(m: Hashes, plan: Plan): Hashes {
    ApplyUpdates(ApplyRenames(m, plan.renames) + DiskHashes(plan.creates), plan.updates) - IndexedPaths(plan.deletes)
  }

  lemma {:induction false} IndexHashesOf(s: seq<Indexed>)
    requires DistinctIndexed(s)
    ensures IndexHashes(s).Keys == IndexedPaths(s) && forall e :: e in s ==> IndexHashes(s)[e.path] == e.contentHash
  {
    if s != [] {
      var before, last := s[..|s| - 1], s[|s| - 1];
      IndexHashesOf(before);
      assert s == before + [last];
      assert last.path !in IndexedPaths(before);
    }
  }

  lemma {:induction false} ByPathOf(s: seq<Indexed>)
    requires DistinctIndexed(s)
    ensures forall e :: e in s ==> e.path in ByPath(s) && ByPath(s)[e.path] == e
  {
    if s != [] {
      var before, last := s[..|s| - 1], s[|s| - 1];
      ByPathOf(before);
      assert s == before + [last];
      assert last.path !in IndexedPaths(before);
    }
  }

  lemma IndexHashesAt(s: seq<Indexed>)
    requires DistinctIndexed(s)
    ensures IndexHashes(s).Keys == IndexedPaths(s)
    ensures forall e :: e in s ==> IndexHashes(s)[e.path] == e.contentHash && ByPath(s)[e.path] == e
  {
    IndexHashesOf(s);
    ByPathOf(s);
    hide DistinctIndexed, IndexHashes, ByPath;
  }

  lemma {:induction false} DiskHashesAt(s: seq<OnDisk>)
    requires DistinctOnDisk(s)
    ensures DiskHashes(s).Keys == DiskPaths(s) && forall d :: d in s ==> DiskHashes(s)[d.path] == Some(d.contentHash)
  {
    if s != [] {
      var before, last := s[..|s| - 1], s[|s| - 1];
      DiskHashesAt(before);
      assert s == before + [last];
      assert last.path !in DiskPaths(before);
    }
  }

  /** What the renames turn m into. */
  ghost predicate MovedTo(m: Hashes, rs: seq<Rename>, m': Hashes) {
    && m'.Keys == m.Keys - OldPaths(rs) + NewPaths(rs)
    && (forall p :: p in m && p !in OldPaths(rs) ==> m'[p] == m[p])
    && (forall r :: r in rs && r.oldPath in m ==> r.newPath in m' && m'[r.newPath] == m[r.oldPath])
  }

  lemma PathsSplit(before: seq<Rename>, last: Rename)
    ensures OldPaths(before + [last]) == OldPaths(before) + {last.oldPath}
    ensures NewPaths(before + [last]) == NewPaths(before) + {last.newPath}
  {
    assert forall r :: r in before + [last] <==> r in before || r == last;
    assert last in before + [last];
    forall r | r in before ensures r in before + [last] {
    }
  }

  lemma LastIsNew(before: seq<Rename>, last: Rename)
    requires DistinctRenames(before + [last])
    ensures DistinctRenames(before) && last.oldPath !in OldPaths(before) && last.newPath !in NewPaths(before)
  {
    assert (before + [last])[|before|] == last;
    forall i | 0 <= i < |before| ensures before[i].oldPath != last.oldPath && before[i].newPath != last.newPath {
      assert (before + [last])[i] == before[i];
    }
    forall i, k | 0 <= i < k < |before|
      ensures before[i].oldPath != before[k].oldPath && before[i].newPath != before[k].newPath
    {
      assert (before + [last])[i] == before[i] && (before + [last])[k] == before[k];
    }
  }

  lemma MovedKeys(m: Hashes, olds: set<string>, news: set<string>, m': Hashes, p: string, q: string)
    requires m'.Keys == m.Keys - olds + news && p in m && p !in olds && news !! m.Keys
    ensures p in m' && (m' - {p})[q := m'[p]].Keys == m.Keys - (olds + {p}) + (news + {q})
  {
  }

  lemma OneMoreMoved(m: Hashes, before: seq<Rename>, last: Rename, m': Hashes)
    requires MovedTo(m, before, m') && last.oldPath in m && last.oldPath !in OldPaths(before)
    requires last.newPath !in NewPaths(before) && last.newPath !in m
    requires NewPaths(before) !! m.Keys
    ensures last.oldPath in m' && MovedTo(m, before + [last], (m' - {last.oldPath})[last.newPath := m'[last.oldPath]])
  {
    PathsSplit(before, last);
    MovedKeys(m, OldPaths(before), NewPaths(before), m', last.oldPath, last.newPath);
    var m'' := (m' - {last.oldPath})[last.newPath := m'[last.oldPath]];
    forall r | r in before + [last] && r.oldPath in m ensures r.newPath in m'' && m''[r.newPath] == m[r.oldPath] {
      if r in before {
        assert r.newPath in NewPaths(before);
        hide OldPaths, NewPaths;
      }
    }
    hide OldPaths, NewPaths;
    forall p | p in m && p !in OldPaths(before + [last]) ensures m''[p] == m[p] {
    }
  }

  lemma {:induction false} RenamesMove(m: Hashes, rs: seq<Rename>)
    requires DistinctRenames(rs) && OldPaths(rs) <= m.Keys && NewPaths(rs) !! m.Keys
    ensures var m' := ApplyRenames(m, rs);
      && m'.Keys == m.Keys - OldPaths(rs) + NewPaths(rs)
      && (forall p :: p in m && p !in OldPaths(rs) ==> m'[p] == m[p])
      && (forall r :: r in rs ==> m'[r.newPath] == m[r.oldPath])
  {
    RenamesMoveTo(m, rs);
    forall r | r in rs ensures r.oldPath in OldPaths(rs) {
    }
    hide DistinctRenames, ApplyRenames;
  }

  lemma {:induction false} RenamesMoveTo(m: Hashes, rs: seq<Rename>)
    requires DistinctRenames(rs) && OldPaths(rs) <= m.Keys && NewPaths(rs) !! m.Keys
    ensures MovedTo(m, rs, ApplyRenames(m, rs))
  {
    if rs != [] {
      var before, last := rs[..|rs| - 1], rs[|rs| - 1];
      assert rs == before + [last];
      PathsSplit(before, last);
      LastIsNew(before, last);
      hide OldPaths, NewPaths, DistinctRenames;
      RenamesMoveTo(m, before);
      OneMoreMoved(m, before, last, ApplyRenames(m, before));
    }
  }

  /** Updating sets the hash of every indexed disk entry that differs and touches nothing else. */
  lemma {:induction false} UpdatesSet(m: Hashes, index: map<string, Indexed>, disk: seq<OnDisk>)
    requires DistinctOnDisk(disk)
    ensures var m' := ApplyUpdates(m, Updates(index, disk));
      && m'.Keys >= m.Keys && m'.Keys <= m.Keys + DiskPaths(disk)
      && (forall p :: p in m && p !in DiskPaths(disk) ==> m'[p] == m[p])
      && (forall d :: d in disk && d.path in index && Differs(index[d.path], d) ==>
            d.path in m' && m'[d.path] == Some(d.contentHash))
      && (forall d :: d in disk && d.path in m && !(d.path in index && Differs(index[d.path], d)) ==>
            m'[d.path] == m[d.path])
    decreases disk
  {
    if disk != [] {
      var d := disk[0];
      var rest := Updates(index, disk[1..]);
      assert forall x :: x in disk <==> x == d || x in disk[1..];
      assert d.path !in DiskPaths(disk[1..]);
      if d.path in index && Differs(index[d.path], d) {
        assert Updates(index, disk) == [(index[d.path], d)] + rest;
        UpdatesSet(m[d.path := Some(d.contentHash)], index, disk[1..]);
      } else {
        assert Updates(index, disk) == [] + rest == rest;
        UpdatesSet(m, index, disk[1..]);
      }
    }
  }

  lemma {:induction false} FilterDistinct(s: seq<OnDisk>, keep: OnDisk -> bool)
    requires DistinctOnDisk(s)
    ensures DistinctOnDisk(Filter(s, keep))
  {
    if s != [] {
      var rest := Filter(s[1..], keep);
      FilterDistinct(s[1..], keep);
      forall d | d in rest ensures d.path != s[0].path {
        assert d in s[1..];
      }
      if keep(s[0]) {
        assert Filter(s, keep) == [s[0]] + rest;
      } else {
        assert Filter(s, keep) == [] + rest == rest;
      }
    }
  }

  /** Where the renames come from and go to. */
  lemma RenamePaths(indexed: seq<Indexed>, disk: seq<OnDisk>)
    requires DistinctIndexed(indexed) && DistinctOnDisk(disk)
    ensures var rs := PlanOf(indexed, disk).renames;
      && DistinctRenames(rs) && OldPaths(rs) <= IndexedPaths(indexed) - DiskPaths(disk)
      && NewPaths(rs) <= DiskPaths(disk) - IndexedPaths(indexed)
      && forall r :: r in rs ==> exists e, d :: e in indexed && d in disk && Moves(r, e, d)
  {
    var missing, appearing := Missing(indexed, disk), Appearing(indexed, disk);
    FilterDistinct(disk, (e: OnDisk) => e.path !in IndexedPaths(indexed));
    MatchedIsJustified(appearing, missing, {});
    var rs := PlanOf(indexed, disk).renames;
    forall r | r in rs ensures r.oldPath in IndexedPaths(indexed) - DiskPaths(disk)
      && r.newPath in DiskPaths(disk) - IndexedPaths(indexed)
      && exists e, d :: e in indexed && d in disk && Moves(r, e, d)
    {
      assert Justified(r, missing, appearing, {});
    }
  }

  lemma {:induction false} RenamedHash(r: Rename, indexed: seq<Indexed>, disk: seq<OnDisk>)
    requires DistinctIndexed(indexed) && DistinctOnDisk(disk) && r in PlanOf(indexed, disk).renames
    ensures r.oldPath in IndexHashes(indexed) && r.newPath in DiskHashes(disk)
    ensures IndexHashes(indexed)[r.oldPath] == DiskHashes(disk)[r.newPath]
  {
    RenamePaths(indexed, disk);
    IndexHashesAt(indexed);
    DiskHashesAt(disk);
    hide PlanOf, IndexHashes, DiskHashes;
    var e, d :| e in indexed && d in disk && Moves(r, e, d);
  }

  lemma AfterRenames(indexed: seq<Indexed>, disk: seq<OnDisk>)
    requires DistinctIndexed(indexed) && DistinctOnDisk(disk)
    ensures var rs := PlanOf(indexed, disk).renames;
      var m := ApplyRenames(IndexHashes(indexed), rs);
      && m.Keys == IndexedPaths(indexed) - OldPaths(rs) + NewPaths(rs)
      && (forall e :: e in indexed && e.path !in OldPaths(rs) ==> m[e.path] == e.contentHash)
      && (forall d :: d in disk && d.path in NewPaths(rs) ==> m[d.path] == Some(d.contentHash))
  {
    var rs := PlanOf(indexed, disk).renames;
    RenamePaths(indexed, disk);
    IndexHashesAt(indexed);
    DiskHashesAt(disk);
    RenamesMove(IndexHashes(indexed), rs);
    forall d | d in disk && d.path in NewPaths(rs)
      ensures ApplyRenames(IndexHashes(indexed), rs)[d.path] == Some(d.contentHash)
    {
      var r :| r in rs && r.newPath == d.path;
      RenamedHash(r, indexed, disk);
    }
  }

  lemma CreatesAt(indexed: seq<Indexed>, disk: seq<OnDisk>)
    requires DistinctIndexed(indexed) && DistinctOnDisk(disk)
    ensures var plan := PlanOf(indexed, disk);
      && DiskHashes(plan.creates).Keys == DiskPaths(disk) - IndexedPaths(indexed) - NewPaths(plan.renames)
      && forall d :: d in disk && d.path in DiskHashes(plan.creates) ==>
           DiskHashes(plan.creates)[d.path] == Some(d.contentHash)
  {
    var plan := PlanOf(indexed, disk);
    var appearing := Appearing(indexed, disk);
    FilterDistinct(disk, (e: OnDisk) => e.path !in IndexedPaths(indexed));
    FilterDistinct(appearing, (d: OnDisk) => d.path !in NewPaths(plan.renames));
    DiskHashesAt(plan.creates);
    forall p | p in DiskPaths(disk) - IndexedPaths(indexed) - NewPaths(plan.renames)
      ensures p in DiskPaths(plan.creates)
    {
      var d :| d in disk && d.path == p;
      assert d in appearing && d in plan.creates;
    }
    forall d | d in disk && d.path in DiskPaths(plan.creates) ensures d in plan.creates {
      var c :| c in plan.creates && c.path == d.path;
      assert c in disk;
    }
  }

  lemma DeletesAt(indexed: seq<Indexed>, disk: seq<OnDisk>)
    ensures var plan := PlanOf(indexed, disk);
      IndexedPaths(plan.deletes) == IndexedPaths(indexed) - DiskPaths(disk) - OldPaths(plan.renames)
  {
    var plan := PlanOf(indexed, disk);
    forall p | p in IndexedPaths(indexed) - DiskPaths(disk) - OldPaths(plan.renames)
      ensures p in IndexedPaths(plan.deletes)
    {
      var e :| e in indexed && e.path == p;
      assert e in Missing(indexed, disk) && e in plan.deletes;
    }
  }

  /** The hashes once everything has been moved and created, before updates and deletions. */
  ghost function Moved(indexed: seq<Indexed>, disk: seq<OnDisk>): Hashes {
    ApplyRenames(IndexHashes(indexed), PlanOf(indexed, disk).renames) + DiskHashes(PlanOf(indexed, disk).creates)
  }

  lemma MovedAt(indexed: seq<Indexed>, disk: seq<OnDisk>)
    requires DistinctIndexed(indexed) && DistinctOnDisk(disk)
    ensures Moved(indexed, disk).Keys - IndexedPaths(PlanOf(indexed, disk).deletes)
      == DiskPaths(disk) <= Moved(indexed, disk).Keys
    ensures forall d :: d in disk && d.path !in IndexedPaths(indexed) ==>
      Moved(indexed, disk)[d.path] == Some(d.contentHash)
    ensures forall e :: e in indexed && e.path in DiskPaths(disk) ==> Moved(indexed, disk)[e.path] == e.contentHash
  {
    var plan := PlanOf(indexed, disk);
    RenamePaths(indexed, disk);
    AfterRenames(indexed, disk);
    CreatesAt(indexed, disk);
    DeletesAt(indexed, disk);
    hide PlanOf, IndexHashes, DiskHashes, ApplyRenames;
    ExactPaths(indexed, disk, plan, Moved(indexed, disk));
  }

  lemma {:induction false} UpdatedIsDisk(m: Hashes, index: map<string, Indexed>, disk: seq<OnDisk>, gone: set<string>)
    requires DistinctOnDisk(disk) && m.Keys - gone == DiskPaths(disk) <= m.Keys
    requires forall d :: d in disk ==>
      m[d.path] == if d.path in index then index[d.path].contentHash else Some(d.contentHash)
    ensures ApplyUpdates(m, Updates(index, disk)) - gone == DiskHashes(disk)
  {
    UpdatesSet(m, index, disk);
    DiskHashesAt(disk);
    hide ApplyUpdates, Updates, DiskHashes;
    var after := ApplyUpdates(m, Updates(index, disk));
    forall d | d in disk ensures after[d.path] == Some(d.contentHash) {
    }
    assert (after - gone).Keys == DiskPaths(disk);
  }

  /** Renaming, creating, updating and deleting as planned turns the index's paths and hashes into
      exactly the disk's. */
  lemma PlanIsExact(indexed: seq<Indexed>, disk: seq<OnDisk>)
    requires DistinctIndexed(indexed) && DistinctOnDisk(disk)
    ensures Applied(IndexHashes(indexed), PlanOf(indexed, disk)) == DiskHashes(disk)
  {
    hide Matched, ApplyRenames, ApplyUpdates, Updates, IndexHashes, DiskHashes, ByPath;
    var plan, m := PlanOf(indexed, disk), Moved(indexed, disk);
    MovedAt(indexed, disk);
    IndexHashesAt(indexed);
    ByPathEntries(indexed);
    assert plan.updates == Updates(ByPath(indexed), disk);
    assert Applied(IndexHashes(indexed), plan) == ApplyUpdates(m, plan.updates) - IndexedPaths(plan.deletes);
    hide PlanOf, Moved, Applied;
    forall d | d in disk ensures m[d.path] == if d.path in ByPath(indexed) then ByPath(indexed)[d.path].contentHash
      else Some(d.contentHash)
    {
      if d.path in ByPath(indexed) {
        assert ByPath(indexed)[d.path] in indexed && ByPath(indexed)[d.path].path in DiskPaths(disk);
      }
    }
    UpdatedIsDisk(m, ByPath(indexed), disk, IndexedPaths(plan.deletes));
  }

  lemma ExactPaths(indexed: seq<Indexed>, disk: seq<OnDisk>, plan: Plan, m: Hashes)
    requires m.Keys == IndexedPaths(indexed) - OldPaths(plan.renames) + NewPaths(plan.renames)
      + (DiskPaths(disk) - IndexedPaths(indexed) - NewPaths(plan.renames))
    requires OldPaths(plan.renames) !! DiskPaths(disk) && NewPaths(plan.renames) <= DiskPaths(disk)
    requires IndexedPaths(plan.deletes) == IndexedPaths(indexed) - DiskPaths(disk) - OldPaths(plan.renames)
    ensures m.Keys - IndexedPaths(plan.deletes) == DiskPaths(disk) && m.Keys >= DiskPaths(disk)
  {
  }

  // ---- every entry is used once ----

  ghost predicate IsOldOf(rs: seq<Rename>, path: string, k: nat) { k < |rs| && rs[k].oldPath == path }
  ghost predicate IsNewOf(rs: seq<Rename>, path: string, k: nat) { k < |rs| && rs[k].newPath == path }

  /** Every indexed entry stays on disk, is the source of exactly one rename, or is deleted; every
      disk entry is indexed, is the target of exactly one rename, or is created; never two of them. */
  lemma {:induction false} EveryEntryUsedOnce(indexed: seq<Indexed>, disk: seq<OnDisk>)
    requires DistinctIndexed(indexed) && DistinctOnDisk(disk)
    ensures var plan := PlanOf(indexed, disk);
      && (forall e :: e in indexed && e.path in DiskPaths(disk) ==>
            e.path !in OldPaths(plan.renames) && e !in plan.deletes)
      && (forall e :: e in indexed && e.path !in DiskPaths(disk) ==>
            (e in plan.deletes <==> e.path !in OldPaths(plan.renames)))
      && (forall d :: d in disk && d.path in IndexedPaths(indexed) ==>
            d.path !in NewPaths(plan.renames) && d !in plan.creates)
      && (forall d :: d in disk && d.path !in IndexedPaths(indexed) ==>
            (d in plan.creates <==> d.path !in NewPaths(plan.renames)))
      && (forall p, j: nat, k: nat :: IsOldOf(plan.renames, p, j) && IsOldOf(plan.renames, p, k) ==> j == k)
      && (forall p, j: nat, k: nat :: IsNewOf(plan.renames, p, j) && IsNewOf(plan.renames, p, k) ==> j == k)
      && (forall e, d :: (e, d) in plan.updates <==>
            && e in indexed && d in disk && e.path == d.path
            && (e.contentHash != Some(d.contentHash) || e.size != d.size))
  {
    RenamePaths(indexed, disk);
    IndexHashesAt(indexed);
    UpdatesAre(ByPath(indexed), disk);
    ByPathEntries(indexed);
    hide Matched, IndexHashes, ByPath, Updates;
  }

  lemma {:induction false} ByPathEntries(s: seq<Indexed>)
    ensures forall p :: p in ByPath(s) ==> ByPath(s)[p] in s && ByPath(s)[p].path == p
  {
    if s != [] { ByPathEntries(s[..|s| - 1]); }
  }

  lemma {:induction false} UpdatesAre(index: map<string, Indexed>, disk: seq<OnDisk>)
    ensures forall e, d :: (e, d) in Updates(index, disk) <==>
      d in disk && d.path in index && e == index[d.path] && Differs(e, d)
  {
    if disk != [] {
      UpdatesAre(index, disk[1..]);
      assert forall d :: d in disk <==> d == disk[0] || d in disk[1..];
    }
  }

  // ---- the number of renames is the greatest possible ----

  ghost function FreeOf(missing: seq<Indexed>, used: set<string>, hash: string): seq<Indexed> {
    Filter(missing, (e: Indexed) => Offers(e, hash) && e.path !in used)
  }

  ghost function WithHash(appearing: seq<OnDisk>, hash: string): seq<OnDisk> {
    Filter(appearing, (d: OnDisk) => d.contentHash == hash)
  }

  ghost function RenamesOf(rs: seq<Rename>, hash: string): seq<Rename> {
    Filter(rs, (r: Rename) => r.contentHash == hash)
  }

  lemma FreeUnfold(missing: seq<Indexed>, used: set<string>, hash: string)
    requires missing != []
    ensures FreeOf(missing, used, hash) ==
      (if Offers(missing[0], hash) && missing[0].path !in used then [missing[0]] else [])
          + FreeOf(missing[1..], used, hash)
  {
  }

  /** Using up one free entry takes exactly that one away. */
  lemma {:induction false} FreeShrinks(missing: seq<Indexed>, used: set<string>, m: Indexed, hash: string)
    requires DistinctIndexed(missing) && m.path !in used
    ensures |FreeOf(missing, used + {m.path}, hash)|
      == |FreeOf(missing, used, hash)| - (if m in missing && Offers(m, hash) then 1 else 0)
      || (m !in missing && exists e :: e in missing && e.path == m.path)
  {
    if missing != [] {
      FreeUnfold(missing, used, hash);
      FreeUnfold(missing, used + {m.path}, hash);
      FreeShrinks(missing[1..], used, m, hash);
      assert m in missing <==> m == missing[0] || m in missing[1..];
      assert forall e :: e in missing[1..] ==> e in missing && e.path != missing[0].path;
    }
  }

  lemma {:induction false} NoneFree(missing: seq<Indexed>, used: set<string>, hash: string)
    ensures FirstFree(missing, used, hash).None? <==> hash == "" || FreeOf(missing, used, hash) == []
  {
    if missing != [] {
      FreeUnfold(missing, used, hash);
      NoneFree(missing[1..], used, hash);
    }
  }

  lemma {:induction false} MatchedCount(appearing: seq<OnDisk>, missing: seq<Indexed>, used: set<string>, hash: string)
    requires DistinctIndexed(missing) && hash != ""
    ensures |RenamesOf(Matched(appearing, missing, used), hash)|
      == Min(|FreeOf(missing, used, hash)|, |WithHash(appearing, hash)|)
  {
    if appearing != [] {
      var d := appearing[0];
      var m := FirstFree(missing, used, d.contentHash);
      assert WithHash(appearing, hash) == (if d.contentHash == hash then [d] else []) + WithHash(appearing[1..], hash);
      NoneFree(missing, used, d.contentHash);
      if m.None? {
        MatchedCount(appearing[1..], missing, used, hash);
      } else {
        var used' := used + {m.value.path};
        MatchedCount(appearing[1..], missing, used', hash);
        FreeShrinks(missing, used, m.value, hash);
        var r, rest := Rename(m.value.fileId, m.value.path, d.path, d.contentHash),
            Matched(appearing[1..], missing, used');
        assert ([r] + rest)[1..] == rest;
        assert RenamesOf([r] + rest, hash) == (if r.contentHash == hash then [r] else []) + RenamesOf(rest, hash);
      }
    }
  }

  lemma {:induction false} FilterDistinctIndexed(s: seq<Indexed>, keep: Indexed -> bool)
    requires DistinctIndexed(s)
    ensures DistinctIndexed(Filter(s, keep))
  {
    if s != [] {
      var rest := Filter(s[1..], keep);
      FilterDistinctIndexed(s[1..], keep);
      forall e | e in rest ensures e.path != s[0].path {
        assert e in s[1..];
      }
      if keep(s[0]) {
        assert Filter(s, keep) == [s[0]] + rest;
      } else {
        assert Filter(s, keep) == [] + rest == rest;
      }
    }
  }

  lemma {:induction false} AllFree(missing: seq<Indexed>, hash: string)
    ensures FreeOf(missing, {}, hash) == OfHash(missing, hash)
  {
    if missing != [] { AllFree(missing[1..], hash); }
  }

  lemma {:induction false} NoneOfHash(rs: seq<Rename>, hash: string)
    requires forall r :: r in rs ==> r.contentHash != hash
    ensures RenamesOf(rs, hash) == []
  {
    if rs != [] { NoneOfHash(rs[1..], hash); }
  }

  /** For every hash there are as many renames as the smaller of the numbers of missing and of
      appearing files with it; files without a hash are never matched. */
  lemma RenamesAreMaximal(indexed: seq<Indexed>, disk: seq<OnDisk>, hash: string)
    requires DistinctIndexed(indexed) && DistinctOnDisk(disk)
    ensures |RenamesOf(PlanOf(indexed, disk).renames, hash)| ==
      if hash == "" then 0 else Min(|OfHash(Missing(indexed, disk), hash)|, |WithHash(Appearing(indexed, disk), hash)|)
  {
    var missing, appearing := Missing(indexed, disk), Appearing(indexed, disk);
    if hash != "" {
      FilterDistinctIndexed(indexed, (e: Indexed) => e.path !in DiskPaths(disk));
      MatchedCount(appearing, missing, {}, hash);
      AllFree(missing, hash);
    } else {
      RenamePaths(indexed, disk);
      hide PlanOf;
      NoneOfHash(PlanOf(indexed, disk).renames, hash);
    }
  }
}
