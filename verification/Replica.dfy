/** How a client follows the vault log (applyOps in apps/plugin/src/sync/engine.ts, listOps in
    packages/server/src/engine/store.ts). */
module Replica {
  import opened Vault
  import opened VaultRuns
  import opened LogShape

  /** The number of the last operation taken over, and the operations applied so far, in order. */
  datatype Replica = Replica(appliedSeq: nat, applied: seq<AppliedOp>)

  // ---- sorting a batch ----

  function Inserted(x: AppliedOp, sorted: seq<AppliedOp>): seq<AppliedOp> {
    if sorted == [] || x.vaultSeq < sorted[0].vaultSeq then [x] + sorted else [sorted[0]] + Inserted(x, sorted[1..])
  }

  function SortBySeq(ops: seq<AppliedOp>): seq<AppliedOp> {
    if ops == [] then [] else Inserted(ops[|ops| - 1], SortBySeq(ops[..|ops| - 1]))
  }

  ghost predicate HoldsSeq(ops: seq<AppliedOp>, n: nat) {
    exists x :: x in ops && x.vaultSeq == n
  }

  ghost predicate Ascending(ops: seq<AppliedOp>) {
    forall i, k :: 0 <= i < k < |ops| ==> ops[i].vaultSeq <= ops[k].vaultSeq
  }

  lemma {:induction false} InsertedItems(x: AppliedOp, sorted: seq<AppliedOp>)
    ensures multiset(Inserted(x, sorted)) == multiset(sorted) + multiset{x}
  {
    if sorted != [] && x.vaultSeq >= sorted[0].vaultSeq {
      InsertedItems(x, sorted[1..]);
      assert sorted == [sorted[0]] + sorted[1..];
    }
  }

  lemma AscendingCons(y: AppliedOp, ops: seq<AppliedOp>)
    requires Ascending(ops) && forall z :: z in ops ==> y.vaultSeq <= z.vaultSeq
    ensures Ascending([y] + ops)
  {
  }

  lemma {:induction false} InsertedSorts(x: AppliedOp, sorted: seq<AppliedOp>)
    requires Ascending(sorted)
    ensures Ascending(Inserted(x, sorted)) && multiset(Inserted(x, sorted)) == multiset(sorted) + multiset{x}
  {
    InsertedItems(x, sorted);
    if sorted != [] && x.vaultSeq >= sorted[0].vaultSeq {
      InsertedSorts(x, sorted[1..]);
      forall z | z in Inserted(x, sorted[1..]) ensures sorted[0].vaultSeq <= z.vaultSeq {
        assert z in multiset(Inserted(x, sorted[1..]));
      }
      hide Ascending, Inserted;
      AscendingCons(sorted[0], Inserted(x, sorted[1..]));
    }
  }

  lemma {:induction false} SortSorts(ops: seq<AppliedOp>)
    ensures Ascending(SortBySeq(ops)) && multiset(SortBySeq(ops)) == multiset(ops)
  {
    if ops != [] {
      var rest := ops[..|ops| - 1];
      SortSorts(rest);
      InsertedSorts(ops[|ops| - 1], SortBySeq(rest));
      assert ops == rest + [ops[|ops| - 1]];
    }
  }

  lemma SortKeepsItems(ops: seq<AppliedOp>)
    ensures Ascending(SortBySeq(ops)) && forall x :: x in SortBySeq(ops) <==> x in ops
  {
    SortSorts(ops);
    forall x ensures x in SortBySeq(ops) <==> x in ops {
      assert x in SortBySeq(ops) <==> x in multiset(SortBySeq(ops));
      assert x in ops <==> x in multiset(ops);
    }
  }

  // ---- applying a batch ----

  /** The replica after a sorted batch, and whether no hole was met. */
  function ApplySorted(r: Replica, ops: seq<AppliedOp>): (Replica, bool)
    decreases ops
  {
    if ops == [] then (r, true)
    else if ops[0].vaultSeq <= r.appliedSeq then ApplySorted(r, ops[1..])
    else if ops[0].vaultSeq != r.appliedSeq + 1 then (r, false)
    else ApplySorted(Replica(ops[0].vaultSeq, r.applied + [ops[0]]), ops[1..])
  }

  function ApplyBatch(r: Replica, ops: seq<AppliedOp>): (Replica, bool) {
    ApplySorted(r, SortBySeq(ops))
  }

  function ApplyBatches(r: Replica, batches: seq<seq<AppliedOp>>): Replica {
    if batches == [] then r else ApplyBatch(ApplyBatches(r, batches[..|batches| - 1]), batches[|batches| - 1]).0
  }

  ghost predicate Dense(log: seq<AppliedOp>) {
    forall i :: 0 <= i < |log| ==> log[i].vaultSeq == i + 1
  }

  ghost predicate DrawnFrom(ops: seq<AppliedOp>, log: seq<AppliedOp>) {
    forall x :: x in ops ==> x in log
  }

  /** What separates r' from r is one stretch of the log, applied once and in order. */
  ghost predicate Advances(r: Replica, r': Replica, log: seq<AppliedOp>) {
    && r.appliedSeq <= r'.appliedSeq && (r'.appliedSeq <= |log| || r' == r)
    && (r'.appliedSeq <= |log| ==> r'.applied == r.applied + log[r.appliedSeq..r'.appliedSeq])
  }

  lemma {:induction false} SortedAdvances(r: Replica, ops: seq<AppliedOp>, log: seq<AppliedOp>)
    requires Dense(log) && DrawnFrom(ops, log)
    ensures Advances(r, ApplySorted(r, ops).0, log)
    decreases ops
  {
    if ops != [] {
      assert ops[0] in log;
      if ops[0].vaultSeq <= r.appliedSeq {
        SortedAdvances(r, ops[1..], log);
      } else if ops[0].vaultSeq == r.appliedSeq + 1 {
        var next := Replica(ops[0].vaultSeq, r.applied + [ops[0]]);
        SortedAdvances(next, ops[1..], log);
        var end := ApplySorted(next, ops[1..]).0.appliedSeq;
        assert log[r.appliedSeq..end] == [ops[0]] + log[next.appliedSeq..end];
      }
    }
  }

  /** The batch is used up to its first hole, and the batch is reported complete exactly when
      nothing in it lies beyond. */
  lemma {:induction false} SortedIsMaximal(r: Replica, ops: seq<AppliedOp>)
    requires Ascending(ops)
    ensures var (r', complete) := ApplySorted(r, ops);
      && r.appliedSeq <= r'.appliedSeq
      && (forall n :: r.appliedSeq < n <= r'.appliedSeq ==> HoldsSeq(ops, n))
      && (forall x :: x in ops ==> x.vaultSeq != r'.appliedSeq + 1)
      && (complete <==> forall x :: x in ops ==> x.vaultSeq <= r'.appliedSeq)
    decreases ops
  {
    if ops != [] {
      assert forall x :: x in ops ==> ops[0].vaultSeq <= x.vaultSeq;
      assert forall x :: x in ops <==> x == ops[0] || x in ops[1..];
      var next := if ops[0].vaultSeq <= r.appliedSeq then r else Replica(ops[0].vaultSeq, r.applied + [ops[0]]);
      SortedIsMaximal(next, ops[1..]);
      var end := ApplySorted(r, ops).0.appliedSeq;
      forall n | r.appliedSeq < n <= end ensures HoldsSeq(ops, n) {
        if n == ops[0].vaultSeq {
          assert ops[0] in ops;
        } else {
          assert HoldsSeq(ops[1..], n);
          var x :| x in ops[1..] && x.vaultSeq == n;
          assert x in ops;
        }
      }
    }
  }

  lemma AdvancesTwice(a: Replica, b: Replica, c: Replica, log: seq<AppliedOp>)
    requires Advances(a, b, log) && Advances(b, c, log)
    ensures Advances(a, c, log)
  {
    if c.appliedSeq <= |log| {
      assert log[a.appliedSeq..c.appliedSeq] == log[a.appliedSeq..b.appliedSeq] + log[b.appliedSeq..c.appliedSeq];
    }
  }

  /** Whatever batches drawn from one gap-free log arrive, with repeats, reorderings and holes, the
      operations applied are exactly the log's from the first unapplied number up to appliedSeq,
      once each and in order. */
  lemma {:induction false} BatchesApplyTheLog(r: Replica, batches: seq<seq<AppliedOp>>, log: seq<AppliedOp>)
    requires Dense(log) && forall i :: 0 <= i < |batches| ==> DrawnFrom(batches[i], log)
    ensures Advances(r, ApplyBatches(r, batches), log)
  {
    if batches == [] {
      assert r.appliedSeq <= |log| ==> log[r.appliedSeq..r.appliedSeq] == [];
    } else {
      var before, last := batches[..|batches| - 1], batches[|batches| - 1];
      BatchesApplyTheLog(r, before, log);
      SortKeepsItems(last);
      SortedAdvances(ApplyBatches(r, before), SortBySeq(last), log);
      AdvancesTwice(r, ApplyBatches(r, before), ApplyBatches(r, batches), log);
    }
  }

  /** One batch takes the replica to the last number before the first hole, no further and no less. */
  lemma BatchReachesFirstHole(r: Replica, ops: seq<AppliedOp>)
    ensures var (r', complete) := ApplyBatch(r, ops);
      && (forall n :: r.appliedSeq < n <= r'.appliedSeq ==> HoldsSeq(ops, n))
      && (forall x :: x in ops ==> x.vaultSeq != r'.appliedSeq + 1)
      && (complete <==> forall x :: x in ops ==> x.vaultSeq <= r'.appliedSeq)
  {
    SortKeepsItems(ops);
    SortedIsMaximal(r, SortBySeq(ops));
    forall n | r.appliedSeq < n <= ApplyBatch(r, ops).0.appliedSeq ensures HoldsSeq(ops, n) {
      assert HoldsSeq(SortBySeq(ops), n);
    }
  }

  // ---- catching up by pages ----

  function EntriesAfter(log: seq<AppliedOp>, since: nat): seq<AppliedOp> {
    if log == [] then []
    else (if log[0].vaultSeq > since then [log[0]] else []) + EntriesAfter(log[1..], since)
  }

  /** The server's answer to a request for the operations after a number. */
  function ListOps(log: seq<AppliedOp>, since: nat, limit: nat): seq<AppliedOp> {
    var found := EntriesAfter(log, since);
    if |found| <= limit then found else found[..limit]
  }

  lemma {:induction false} AfterIsSuffix(log: seq<AppliedOp>, from: nat, since: nat)
    requires from <= |log| && Dense(log)
    ensures EntriesAfter(log[from..], since)
      == log[if since < from then from else if since <= |log| then since else |log|..]
    decreases |log| - from
  {
    if from < |log| {
      AfterIsSuffix(log, from + 1, since);
      assert log[from..][1..] == log[from + 1..];
      assert log[from..] == [log[from]] + log[from + 1..];
    }
  }

  lemma {:induction false} ConsecutiveApplies(r: Replica, log: seq<AppliedOp>, end: nat)
    requires Dense(log) && r.appliedSeq <= end <= |log|
    ensures ApplySorted(r, log[r.appliedSeq..end]) == (Replica(end, r.applied + log[r.appliedSeq..end]), true)
    decreases end - r.appliedSeq
  {
    var ops := log[r.appliedSeq..end];
    if r.appliedSeq < end {
      var next := Replica(r.appliedSeq + 1, r.applied + [log[r.appliedSeq]]);
      ConsecutiveApplies(next, log, end);
      assert ops[0] == log[r.appliedSeq] && ops[1..] == log[r.appliedSeq + 1..end];
      assert ops == [ops[0]] + log[r.appliedSeq + 1..end];
      assert next.applied + log[r.appliedSeq + 1..end] == r.applied + ops;
    } else {
      assert ops == [] && r.applied + ops == r.applied;
    }
  }

  lemma {:induction false} AscendingIsSorted(ops: seq<AppliedOp>)
    requires Ascending(ops)
    ensures SortBySeq(ops) == ops
  {
    if ops != [] {
      AscendingIsSorted(ops[..|ops| - 1]);
      InsertsAtEnd(ops[|ops| - 1], ops[..|ops| - 1]);
    }
  }

  lemma {:induction false} InsertsAtEnd(x: AppliedOp, sorted: seq<AppliedOp>)
    requires forall y :: y in sorted ==> y.vaultSeq <= x.vaultSeq
    ensures Inserted(x, sorted) == sorted + [x]
  {
    if sorted != [] {
      assert sorted[0] in sorted;
      InsertsAtEnd(x, sorted[1..]);
      assert sorted == [sorted[0]] + sorted[1..];
    }
  }

  lemma PageApplies(r: Replica, log: seq<AppliedOp>, limit: nat)
    requires Dense(log) && r.appliedSeq <= |log|
    ensures var end := if r.appliedSeq + limit <= |log| then r.appliedSeq + limit else |log|;
      ApplyBatch(r, ListOps(log, r.appliedSeq, limit)) == (Replica(end, r.applied + log[r.appliedSeq..end]), true)
  {
    AfterIsSuffix(log, 0, r.appliedSeq);
    assert log[0..] == log;
    var end := if r.appliedSeq + limit <= |log| then r.appliedSeq + limit else |log|;
    assert ListOps(log, r.appliedSeq, limit) == log[r.appliedSeq..end];
    AscendingIsSorted(log[r.appliedSeq..end]);
    ConsecutiveApplies(r, log, end);
  }

  /** Asking for the next page until none is left. */
  function CatchUp(r: Replica, log: seq<AppliedOp>, limit: nat, rounds: nat): Replica
    decreases rounds
  {
    if rounds == 0 then r else CatchUp(ApplyBatch(r, ListOps(log, r.appliedSeq, limit)).0, log, limit, rounds - 1)
  }

  /** Paging through the whole log applies all of it: any replica that holds a prefix of the log ends
      with the log. */
  lemma {:induction false} CatchUpReachesTheEnd(r: Replica, log: seq<AppliedOp>, limit: nat, rounds: nat)
    requires Dense(log) && r.appliedSeq <= |log| && r.applied == log[..r.appliedSeq]
    requires limit > 0 && r.appliedSeq + rounds * limit >= |log|
    ensures CatchUp(r, log, limit, rounds) == Replica(|log|, log)
    decreases rounds
  {
    if rounds == 0 {
      assert log[..|log|] == log;
    } else {
      PageApplies(r, log, limit);
      var r' := ApplyBatch(r, ListOps(log, r.appliedSeq, limit)).0;
      assert rounds * limit == (rounds - 1) * limit + limit;
      if r.appliedSeq + limit > |log| { MoreRounds(rounds - 1, limit); }
      assert r'.applied == log[..r'.appliedSeq];
      CatchUpReachesTheEnd(r', log, limit, rounds - 1);
    }
  }

  lemma MoreRounds(rounds: nat, limit: nat)
    ensures rounds * limit >= 0
  {
  }

  /** The operations a server in any reachable state serves form such a log, so a client that starts
      empty and receives any batches of them holds a prefix of the server's log. */
  lemma {:induction false} ReplicaFollowsServer(s: State, batches: seq<seq<AppliedOp>>)
    requires Reachable(s) && forall i :: 0 <= i < |batches| ==> DrawnFrom(batches[i], s.journal.outbox)
    ensures var r := ApplyBatches(Replica(0, []), batches);
      r.appliedSeq <= |s.journal.outbox| && r.applied == s.journal.outbox[..r.appliedSeq]
  {
    ReachableShape(s);
    hide Reachable;
    BatchesApplyTheLog(Replica(0, []), batches, s.journal.outbox);
  }
}
