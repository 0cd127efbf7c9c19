/** Which snapshot versions of the rooms' history are kept (packages/server/src/engine/yjs-gc.ts). */
module HistoryRetention {
  import opened Basics
  import opened PathClocks

  datatype Row = Row(versionId: string, fileId: string, createdAt: int, seqNo: int, isCurrent: bool)

  /** The order in which a file's versions are looked through. */
  predicate Newer(x: Row, y: Row) {
    || x.createdAt > y.createdAt
    || (x.createdAt == y.createdAt
          && (x.seqNo > y.seqNo || (x.seqNo == y.seqNo && StringLess(y.versionId, x.versionId))))
  }

  /** Version ids are primary keys. */
  ghost predicate DistinctIds(rows: seq<Row>) {
    forall i, k :: 0 <= i < k < |rows| ==> rows[i].versionId != rows[k].versionId
  }

  // ---- the rule ----

  /** The newer versions of the same file that are not current. */
  ghost function Ahead(rows: seq<Row>, r: Row): set<Row> {
    set x | x in rows && x.fileId == r.fileId && !x.isCurrent && Newer(x, r)
  }

  /** Current versions are kept, and of the others a version that fewer than n newer ones precede. */
  ghost predicate Kept(rows: seq<Row>, n: int, r: Row) {
    r.isCurrent || |Ahead(rows, r)| < n
  }

  // ---- sorting ----

  function Placed(x: Row, sorted: seq<Row>): seq<Row> {
    if sorted == [] || Newer(x, sorted[0]) then [x] + sorted else [sorted[0]] + Placed(x, sorted[1..])
  }

  function SortNewestFirst(rows: seq<Row>): seq<Row> {
    if rows == [] then [] else Placed(rows[|rows| - 1], SortNewestFirst(rows[..|rows| - 1]))
  }

  ghost predicate NewestFirst(rows: seq<Row>) {
    forall i, k :: 0 <= i < k < |rows| ==> Newer(rows[i], rows[k])
  }

  lemma NewerIsTotal(x: Row, y: Row, z: Row)
    ensures x.versionId != y.versionId ==> Newer(x, y) || Newer(y, x)
    ensures !(Newer(x, y) && Newer(y, x)) && !Newer(x, x)
    ensures Newer(x, y) && Newer(y, z) ==> Newer(x, z)
  {
    StringLessTotal(x.versionId, y.versionId);
    StringLessTotal(x.versionId, x.versionId);
    if StringLess(y.versionId, x.versionId) && StringLess(z.versionId, y.versionId) {
      StringLessTransitive(z.versionId, y.versionId, x.versionId);
    }
  }

  lemma {:induction false} PlacedItems(x: Row, sorted: seq<Row>)
    ensures forall y :: y in Placed(x, sorted) <==> y == x || y in sorted
  {
    if sorted != [] { PlacedItems(x, sorted[1..]); }
  }

  lemma NewestFirstCons(y: Row, rows: seq<Row>)
    requires NewestFirst(rows) && forall z :: z in rows ==> Newer(y, z)
    ensures NewestFirst([y] + rows)
  {
    hide Newer;
  }

  lemma {:induction false} PlacedSorts(x: Row, sorted: seq<Row>)
    requires NewestFirst(sorted) && forall y :: y in sorted ==> y.versionId != x.versionId
    ensures NewestFirst(Placed(x, sorted))
  {
    hide Newer;
    if sorted == [] {
    } else if Newer(x, sorted[0]) {
      forall z | z in sorted ensures Newer(x, z) {
        NewerIsTotal(x, sorted[0], z);
      }
      NewestFirstCons(x, sorted);
    } else {
      PlacedSorts(x, sorted[1..]);
      PlacedItems(x, sorted[1..]);
      NewerIsTotal(x, sorted[0], x);
      NewestFirstCons(sorted[0], Placed(x, sorted[1..]));
    }
  }

  lemma {:induction false} SortSorts(rows: seq<Row>)
    requires DistinctIds(rows)
    ensures NewestFirst(SortNewestFirst(rows)) && forall y :: y in SortNewestFirst(rows) <==> y in rows
  {
    hide Newer;
    if rows != [] {
      var before, last := rows[..|rows| - 1], rows[|rows| - 1];
      assert rows == before + [last];
      SortSorts(before);
      PlacedItems(last, SortNewestFirst(before));
      PlacedSorts(last, SortNewestFirst(before));
    }
  }

  // ---- one file ----

  ghost function NotCurrent(rows: seq<Row>): set<Row> {
    set x | x in rows && !x.isCurrent
  }

  /** In a file's sorted versions, those ahead of the i-th are the earlier ones. */
  lemma AheadIsPrefix(rows: seq<Row>, sorted: seq<Row>, fileId: string, i: nat)
    requires NewestFirst(sorted) && i < |sorted| && forall x :: x in sorted <==> x in rows && x.fileId == fileId
    ensures Ahead(rows, sorted[i]) == NotCurrent(sorted[..i])
  {
    var r := sorted[i];
    assert r in sorted;
    forall x ensures x in Ahead(rows, r) <==> x in NotCurrent(sorted[..i]) {
      NewerIsTotal(x, r, x);
      hide Newer;
      if x in sorted {
        var k :| 0 <= k < |sorted| && sorted[k] == x;
        if k < i {
          assert x in sorted[..i] && Newer(x, r);
        } else {
          assert !Newer(x, r);
          assert x !in sorted[..i] by {
            forall j | 0 <= j < i ensures sorted[j] != x {
              NewerIsTotal(sorted[j], x, x);
            }
          }
        }
      } else {
        assert x !in sorted[..i];
      }
    }
  }

  lemma OneMoreNotCurrent(sorted: seq<Row>, i: nat)
    requires NewestFirst(sorted) && i < |sorted|
    ensures |NotCurrent(sorted[..i + 1])| == |NotCurrent(sorted[..i])| + (if sorted[i].isCurrent then 0 else 1)
  {
    var r := sorted[i];
    assert sorted[..i + 1] == sorted[..i] + [r];
    assert r !in sorted[..i] by {
      forall j | 0 <= j < i ensures sorted[j] != r {
        NewerIsTotal(sorted[j], r, r);
      }
    }
    assert NotCurrent(sorted[..i + 1]) == NotCurrent(sorted[..i]) + (if r.isCurrent then {} else {r});
  }

  ghost function KeptIn(rows: seq<Row>, n: int, among: set<Row>): set<string> {
    set r | r in among && Kept(rows, n, r) :: r.versionId
  }

  ghost function DroppedIn(rows: seq<Row>, n: int, among: set<Row>): set<string> {
    set r | r in among && !Kept(rows, n, r) :: r.versionId
  }

  function Elements(rows: seq<Row>): set<Row> { set r | r in rows }

  /** The number of other versions kept among the first ones looked at. */
  function Retained(seen: nat, n: int): nat {
    if n < 0 then 0 else if seen <= n then seen else n
  }

  lemma StepSets(rows: seq<Row>, sorted: seq<Row>, fileId: string, n: int, i: nat)
    requires SortedGroup(rows, sorted, fileId) && i < |sorted|
    ensures var (row, seen) := (sorted[i], |NotCurrent(sorted[..i])|);
      && (Kept(rows, n, row) <==> row.isCurrent || seen < n)
      && |NotCurrent(sorted[..i + 1])| == seen + (if row.isCurrent then 0 else 1)
      && KeptIn(rows, n, Elements(sorted[..i + 1]))
           == KeptIn(rows, n, Elements(sorted[..i])) + (if Kept(rows, n, row) then {row.versionId} else {})
      && DroppedIn(rows, n, Elements(sorted[..i + 1]))
           == DroppedIn(rows, n, Elements(sorted[..i])) + (if Kept(rows, n, row) then {} else {row.versionId})
  {
    AheadIsPrefix(rows, sorted, fileId, i);
    OneMoreNotCurrent(sorted, i);
    var row := sorted[i];
    assert Kept(rows, n, row) <==> row.isCurrent || |NotCurrent(sorted[..i])| < n;
    hide Newer, Kept, NewestFirst;
    assert Elements(sorted[..i + 1]) == Elements(sorted[..i]) + {row};
  }

  /** All versions of one file, newest first. */
  ghost predicate SortedGroup(rows: seq<Row>, sorted: seq<Row>, fileId: string) {
    DistinctIds(rows) && NewestFirst(sorted) && forall x :: x in sorted <==> x in rows && x.fileId == fileId
  }

  /** Looks through one file's versions, newest first. */
  method LookThrough(ghost rows: seq<Row>, ghost fileId: string, sorted: seq<Row>, retainedPerFile: int)
    returns (keep: set<string>, prune: set<string>)
    requires SortedGroup(rows, sorted, fileId)
    ensures keep == KeptIn(rows, retainedPerFile, Elements(sorted))
    ensures prune == DroppedIn(rows, retainedPerFile, Elements(sorted))
  {
    hide *;
    var current := CurrentIds(sorted);
    keep, prune := current, {};
    NothingYet(rows, sorted, retainedPerFile);
    var retained := 0;
    ghost var seen := 0;
    RetainedFirst(retainedPerFile);
    for i := 0 to |sorted|
      invariant seen == |NotCurrent(sorted[..i])|
      invariant retained == Retained(seen, retainedPerFile)
      invariant keep == current + KeptIn(rows, retainedPerFile, Elements(sorted[..i]))
      invariant prune == DroppedIn(rows, retainedPerFile, Elements(sorted[..i]))
    {
      var row := sorted[i];
      StepSets(rows, sorted, fileId, retainedPerFile, i);
      IdInKeep(rows, sorted, fileId, retainedPerFile, i);
      RetainedNext(seen, retainedPerFile);
      CurrentHas(sorted, i);
      UnionFacts(current, KeptIn(rows, retainedPerFile, Elements(sorted[..i])), row.versionId);
      assert Kept(rows, retainedPerFile, row) <==> row.isCurrent || seen < retainedPerFile;
      if row.versionId in keep { continue; }
      seen := seen + 1;
      if retained < retainedPerFile {
        keep := keep + {row.versionId};
        retained := retained + 1;
      } else {
        prune := prune + {row.versionId};
      }
    }
    assert sorted[..|sorted|] == sorted;
    CurrentIsKept(rows, sorted, retainedPerFile);
  }

  lemma UnionFacts(a: set<string>, b: set<string>, x: string)
    ensures a + b + {x} == a + (b + {x}) && a + (b + {}) == a + b
    ensures x in a ==> a + (b + {x}) == a + b
  {
  }

  lemma CurrentHas(sorted: seq<Row>, i: nat)
    requires i < |sorted|
    ensures sorted[i].isCurrent ==> sorted[i].versionId in CurrentIds(sorted)
  {
    assert sorted[i] in sorted;
  }

  lemma RetainedFirst(n: int)
    ensures Retained(0, n) == 0
  {
  }

  lemma RetainedNext(seen: nat, n: int)
    ensures Retained(seen, n) < n <==> seen < n
    ensures Retained(seen + 1, n) == Retained(seen, n) + (if seen < n then 1 else 0)
  {
  }

  method SelectGroup(ghost rows: seq<Row>, ghost fileId: string, group: seq<Row>, retainedPerFile: int)
    returns (keep: set<string>, prune: set<string>)
    requires DistinctIds(rows) && DistinctIds(group) && forall x :: x in group <==> x in rows && x.fileId == fileId
    ensures keep == KeptIn(rows, retainedPerFile, Elements(group))
    ensures prune == DroppedIn(rows, retainedPerFile, Elements(group))
  {
    hide Kept, Newer, KeptIn, DroppedIn, DistinctIds, NewestFirst;
    var sorted := SortNewestFirst(group);
    SortSorts(group);
    assert Elements(sorted) == Elements(group);
    keep, prune := LookThrough(rows, fileId, sorted, retainedPerFile);
  }

  function CurrentIds(rows: seq<Row>): set<string> { set r | r in rows && r.isCurrent :: r.versionId }

  lemma CurrentIsKept(rows: seq<Row>, sorted: seq<Row>, n: int)
    ensures CurrentIds(sorted) <= KeptIn(rows, n, Elements(sorted))
  {
  }

  lemma NothingYet(rows: seq<Row>, sorted: seq<Row>, n: int)
    ensures KeptIn(rows, n, Elements(sorted[..0])) == {} && DroppedIn(rows, n, Elements(sorted[..0])) == {}
    ensures NotCurrent(sorted[..0]) == {}
  {
  }

  /** The id of the i-th row is among those kept so far exactly if the row is current. */
  lemma IdInKeep(rows: seq<Row>, sorted: seq<Row>, fileId: string, n: int, i: nat)
    requires SortedGroup(rows, sorted, fileId) && i < |sorted|
    ensures sorted[i].versionId in CurrentIds(sorted) + KeptIn(rows, n, Elements(sorted[..i])) <==> sorted[i].isCurrent
  {
    hide Newer, Kept;
    var row := sorted[i];
    assert row in sorted;
    forall x | x in sorted && x.versionId == row.versionId ensures x == row {
      assert x in rows && row in rows;
    }
    assert row !in sorted[..i] by {
      forall j | 0 <= j < i ensures sorted[j] != row {
        NewerIsTotal(sorted[j], row, row);
      }
    }
    assert forall x :: x in sorted[..i] ==> x in sorted;
  }

  // ---- all files ----

  ghost predicate GroupOf(group: seq<Row>, rows: seq<Row>, fileId: string) {
    DistinctIds(group) && forall x :: x in group <==> x in rows && x.fileId == fileId
  }

  ghost predicate Grouped(groups: map<string, seq<Row>>, rows: seq<Row>) {
    && (forall r :: r in rows ==> r.fileId in groups)
    && (forall f :: f in groups ==> GroupOf(groups[f], rows, f))
  }

  lemma GroupedOneMore(groups: map<string, seq<Row>>, rows: seq<Row>, r: Row)
    requires Grouped(groups, rows) && DistinctIds(rows + [r])
    ensures Grouped(groups[r.fileId := (if r.fileId in groups then groups[r.fileId] else []) + [r]], rows + [r])
  {
    assert (rows + [r])[|rows|] == r;
    forall x | x in rows ensures x.versionId != r.versionId {
      var i :| 0 <= i < |rows| && rows[i] == x;
      assert (rows + [r])[i] == x;
    }
  }

  method GroupByFile(rows: seq<Row>) returns (groups: map<string, seq<Row>>)
    requires DistinctIds(rows)
    ensures Grouped(groups, rows)
  {
    groups := map[];
    for i := 0 to |rows|
      invariant Grouped(groups, rows[..i])
    {
      assert rows[..i + 1] == rows[..i] + [rows[i]];
      GroupedOneMore(groups, rows[..i], rows[i]);
      hide Grouped;
      groups := groups[rows[i].fileId := (if rows[i].fileId in groups then groups[rows[i].fileId] else []) + [rows[i]]];
    }
    assert rows[..|rows|] == rows;
  }

  lemma OfFile(group: seq<Row>, rows: seq<Row>, fileId: string)
    requires GroupOf(group, rows, fileId)
    ensures Elements(group) == set r | r in rows && r.fileId == fileId
  {
  }

  ghost function OfFiles(rows: seq<Row>, done: set<string>): set<Row> {
    set r | r in rows && r.fileId in done
  }

  lemma OneMoreFile(rows: seq<Row>, group: seq<Row>, n: int, done: set<string>, fileId: string)
    requires GroupOf(group, rows, fileId)
    ensures KeptIn(rows, n, OfFiles(rows, done + {fileId}))
      == KeptIn(rows, n, OfFiles(rows, done)) + KeptIn(rows, n, Elements(group))
    ensures DroppedIn(rows, n, OfFiles(rows, done + {fileId}))
      == DroppedIn(rows, n, OfFiles(rows, done)) + DroppedIn(rows, n, Elements(group))
  {
    hide Kept;
    OfFile(group, rows, fileId);
    assert OfFiles(rows, done + {fileId}) == OfFiles(rows, done) + Elements(group);
  }

  lemma NoFile(rows: seq<Row>, n: int)
    ensures KeptIn(rows, n, OfFiles(rows, {})) == {} && DroppedIn(rows, n, OfFiles(rows, {})) == {}
  {
  }

  method SelectYjsHistoryRetention(rows: seq<Row>, retainedPerFile: int) returns (keep: set<string>, prune: set<string>)
    requires DistinctIds(rows)
    ensures keep == KeptIn(rows, retainedPerFile, Elements(rows))
    ensures prune == DroppedIn(rows, retainedPerFile, Elements(rows))
  {
    var groups := GroupByFile(rows);
    hide Kept, KeptIn, DroppedIn, DistinctIds;
    keep, prune := {}, {};
    NoFile(rows, retainedPerFile);
    assert OfFiles(rows, groups.Keys) == Elements(rows);
    hide OfFiles, Elements;
    var todo := groups.Keys;
    assert groups.Keys - todo == {};
    while todo != {}
      invariant todo <= groups.Keys
      invariant keep == KeptIn(rows, retainedPerFile, OfFiles(rows, groups.Keys - todo))
      invariant prune == DroppedIn(rows, retainedPerFile, OfFiles(rows, groups.Keys - todo))
    {
      var fileId :| fileId in todo;
      assert GroupOf(groups[fileId], rows, fileId);
      var groupKeep, groupPrune := SelectGroup(rows, fileId, groups[fileId], retainedPerFile);
      OneMoreFile(rows, groups[fileId], retainedPerFile, groups.Keys - todo, fileId);
      keep, prune := keep + groupKeep, prune + groupPrune;
      assert groups.Keys - (todo - {fileId}) == (groups.Keys - todo) + {fileId};
      todo := todo - {fileId};
    }
    assert groups.Keys - todo == groups.Keys;
  }

  // ---- what the rule means ----

  ghost function AllIds(rows: seq<Row>): set<string> { set r | r in rows :: r.versionId }

  /** Every version is either kept or dropped. */
  lemma KeepAndDropSplit(rows: seq<Row>, n: int)
    requires DistinctIds(rows)
    ensures KeptIn(rows, n, Elements(rows)) + DroppedIn(rows, n, Elements(rows)) == AllIds(rows)
    ensures KeptIn(rows, n, Elements(rows)) !! DroppedIn(rows, n, Elements(rows))
  {
    hide Kept;
  }

  ghost function Others(rows: seq<Row>, fileId: string): set<Row> {
    set r | r in rows && r.fileId == fileId && !r.isCurrent
  }

  ghost function KeptOthers(rows: seq<Row>, n: int, fileId: string): set<Row> {
    set r | r in Others(rows, fileId) && Kept(rows, n, r)
  }

  lemma {:induction false} CountPrefix(sorted: seq<Row>, n: nat)
    requires NewestFirst(sorted) && n <= |sorted| && forall x :: x in sorted ==> !x.isCurrent
    ensures |NotCurrent(sorted[..n])| == n
  {
    if n > 0 {
      CountPrefix(sorted, n - 1);
      OneMoreNotCurrent(sorted, n - 1);
    }
  }

  /** The other versions of a file as a sorted sequence. */
  lemma SortedOthers(rows: seq<Row>, fileId: string) returns (sorted: seq<Row>)
    requires DistinctIds(rows)
    ensures NewestFirst(sorted) && forall x :: x in sorted <==> x in Others(rows, fileId)
  {
    var others := OthersOf(rows, fileId);
    OthersOfAre(rows, fileId);
    SortSorts(others);
    sorted := SortNewestFirst(others);
  }

  ghost function OthersOf(rows: seq<Row>, fileId: string): seq<Row> {
    if rows == [] then []
    else OthersOf(rows[..|rows| - 1], fileId)
           + (if rows[|rows| - 1].fileId == fileId && !rows[|rows| - 1].isCurrent then [rows[|rows| - 1]] else [])
  }

  lemma {:induction false} OthersOfAre(rows: seq<Row>, fileId: string)
    requires DistinctIds(rows)
    ensures DistinctIds(OthersOf(rows, fileId))
    ensures forall x :: x in OthersOf(rows, fileId) <==> x in Others(rows, fileId)
  {
    if rows != [] {
      var before, last := rows[..|rows| - 1], rows[|rows| - 1];
      assert rows == before + [last];
      OthersOfAre(before, fileId);
      forall x | x in OthersOf(before, fileId) ensures x.versionId != last.versionId {
        assert x in before;
      }
    }
  }

  lemma SortedRank(rows: seq<Row>, sorted: seq<Row>, fileId: string, i: nat)
    requires NewestFirst(sorted) && i < |sorted| && forall x :: x in sorted <==> x in Others(rows, fileId)
    ensures |Ahead(rows, sorted[i])| == i
  {
    assert sorted[i] in sorted;
    AheadIsPrefix(sorted, sorted, fileId, i);
    CountPrefix(sorted, i);
    assert Ahead(rows, sorted[i]) == Ahead(sorted, sorted[i]);
  }

  /** Besides the current ones, each file keeps exactly its newest versions, as many as asked for
      if there are that many: whatever is kept is newer than whatever is dropped. */
  lemma KeepsTheNewest(rows: seq<Row>, n: nat, fileId: string)
    requires DistinctIds(rows)
    ensures |KeptOthers(rows, n, fileId)| == Min(n, |Others(rows, fileId)|)
    ensures forall x, y ::
      x in KeptOthers(rows, n, fileId) && y in Others(rows, fileId) - KeptOthers(rows, n, fileId) ==>
        || x.createdAt > y.createdAt
        || (x.createdAt == y.createdAt && x.seqNo > y.seqNo)
        || (x.createdAt == y.createdAt && x.seqNo == y.seqNo && StringLess(y.versionId, x.versionId))
  {
    forall x, y | Newer(x, y)
      ensures || x.createdAt > y.createdAt
              || (x.createdAt == y.createdAt && x.seqNo > y.seqNo)
              || (x.createdAt == y.createdAt && x.seqNo == y.seqNo && StringLess(y.versionId, x.versionId))
    {
    }
    var sorted := SortedOthers(rows, fileId);
    forall i | 0 <= i < |sorted| ensures Kept(rows, n, sorted[i]) <==> i < n {
      SortedRank(rows, sorted, fileId, i);
      assert sorted[i] in sorted;
    }
    hide Kept, Newer;
    var m := Min(n, |sorted|);
    CountPrefix(sorted, m);
    CountPrefix(sorted, |sorted|);
    assert KeptOthers(rows, n, fileId) == NotCurrent(sorted[..m]) by {
      forall x ensures x in KeptOthers(rows, n, fileId) <==> x in sorted[..m] {
        if x in sorted {
          var i :| 0 <= i < |sorted| && sorted[i] == x;
          assert x in sorted[..m] <==> exists k :: 0 <= k < m && sorted[k] == x;
        }
      }
    }
    assert Others(rows, fileId) == NotCurrent(sorted[..|sorted|]);
  }

  lemma FewerAhead(rows: seq<Row>, fewer: seq<Row>, r: Row)
    requires forall x :: x in fewer ==> x in rows
    ensures |Ahead(fewer, r)| <= |Ahead(rows, r)|
  {
    assert Ahead(fewer, r) <= Ahead(rows, r);
    SubsetCount(Ahead(fewer, r), Ahead(rows, r));
  }

  /** Selecting again among the versions that were kept drops nothing. */
  lemma SelectingAgainDropsNothing(rows: seq<Row>, n: int, kept: seq<Row>)
    requires forall r :: r in kept ==> r in rows && Kept(rows, n, r)
    ensures DroppedIn(kept, n, Elements(kept)) == {}
  {
    forall r | r in kept ensures Kept(kept, n, r) {
      FewerAhead(rows, kept, r);
    }
  }
}
