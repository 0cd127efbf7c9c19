/** The longest-common-subsequence table of the line merge and its greedy trace
    (apps/plugin/src/sync/yjs-session.ts, lcsPairs). */
module Lcs {

  type Line = string

  /** Length of the longest common subsequence of a[i..] and b[j..]: the cell dp[i][j]. */
  ghost function Len(a: seq<Line>, b: seq<Line>, i: nat, j: nat): nat
    requires i <= |a| && j <= |b|
    decreases |a| - i + |b| - j
  {
    if i == |a| || j == |b| then 0
    else if a[i] == b[j] then Len(a, b, i + 1, j + 1) + 1
    else if Len(a, b, i + 1, j) >= Len(a, b, i, j + 1) then Len(a, b, i + 1, j)
    else Len(a, b, i, j + 1)
  }

  /** The walk over the finished table, starting at cell (i, j). */
  ghost function Trace(a: seq<Line>, b: seq<Line>, i: nat, j: nat): seq<(nat, nat)>
    requires i <= |a| && j <= |b|
    decreases |a| - i + |b| - j
  {
    if i == |a| || j == |b| then []
    else if a[i] == b[j] then [(i, j)] + Trace(a, b, i + 1, j + 1)
    else if Len(a, b, i + 1, j) >= Len(a, b, i, j + 1) then Trace(a, b, i + 1, j)
    else Trace(a, b, i, j + 1)
  }

  ghost function Pairs(a: seq<Line>, b: seq<Line>): seq<(nat, nat)> {
    Trace(a, b, 0, 0)
  }

  /** Pairs of equal lines, strictly increasing in both coordinates, inside a[i..] and b[j..]. */
  ghost predicate Matching(a: seq<Line>, b: seq<Line>, ps: seq<(nat, nat)>, i: nat, j: nat) {
    && (forall k :: 0 <= k < |ps| ==> i <= ps[k].0 < |a| && j <= ps[k].1 < |b| && a[ps[k].0] == b[ps[k].1])
    && (forall k, l :: 0 <= k < l < |ps| ==> ps[k].0 < ps[l].0 && ps[k].1 < ps[l].1)
  }

  /** c[k..] is a (not necessarily contiguous) subsequence of a[i..]. */
  ghost predicate SubsequenceFrom(c: seq<Line>, k: nat, a: seq<Line>, i: nat)
    requires k <= |c| && i <= |a|
    decreases |a| - i
  {
    || k == |c|
    || (i < |a| && ((c[k] == a[i] && SubsequenceFrom(c, k + 1, a, i + 1)) || SubsequenceFrom(c, k, a, i + 1)))
  }

  ghost predicate Subsequence(c: seq<Line>, a: seq<Line>) {
    SubsequenceFrom(c, 0, a, 0)
  }

  lemma MatchingCons(a: seq<Line>, b: seq<Line>, tail: seq<(nat, nat)>, i: nat, j: nat)
    requires i < |a| && j < |b| && a[i] == b[j]
    requires Matching(a, b, tail, i + 1, j + 1)
    ensures Matching(a, b, [(i, j)] + tail, i, j)
  {
    var ps := [(i, j)] + tail;
    assert forall k :: 1 <= k < |ps| ==> ps[k] == tail[k - 1];
  }

  lemma {:induction false} TraceIsMatching(a: seq<Line>, b: seq<Line>, i: nat, j: nat)
    requires i <= |a| && j <= |b|
    ensures Matching(a, b, Trace(a, b, i, j), i, j)
    ensures |Trace(a, b, i, j)| == Len(a, b, i, j)
    decreases |a| - i + |b| - j
  {
    if i == |a| || j == |b| {
    } else if a[i] == b[j] {
      TraceIsMatching(a, b, i + 1, j + 1);
      MatchingCons(a, b, Trace(a, b, i + 1, j + 1), i, j);
    } else if Len(a, b, i + 1, j) >= Len(a, b, i, j + 1) {
      TraceIsMatching(a, b, i + 1, j);
    } else {
      TraceIsMatching(a, b, i, j + 1);
    }
  }

  lemma {:induction false} DropHead(c: seq<Line>, k: nat, a: seq<Line>, i: nat)
    requires k < |c| && i < |a|
    requires SubsequenceFrom(c, k, a, i)
    ensures SubsequenceFrom(c, k + 1, a, i + 1)
    decreases |a| - i
  {
    if !(c[k] == a[i] && SubsequenceFrom(c, k + 1, a, i + 1)) {
      DropHead(c, k, a, i + 1);
    }
  }

  lemma {:induction false} LenIsUpperBound(c: seq<Line>, k: nat, a: seq<Line>, b: seq<Line>, i: nat, j: nat)
    requires k <= |c| && i <= |a| && j <= |b|
    requires SubsequenceFrom(c, k, a, i) && SubsequenceFrom(c, k, b, j)
    ensures |c| - k <= Len(a, b, i, j)
    decreases |a| - i + |b| - j
  {
    if k < |c| {
      if a[i] == b[j] {
        DropHead(c, k, a, i);
        DropHead(c, k, b, j);
        LenIsUpperBound(c, k + 1, a, b, i + 1, j + 1);
      } else if c[k] != a[i] {
        LenIsUpperBound(c, k, a, b, i + 1, j);
      } else {
        LenIsUpperBound(c, k, a, b, i, j + 1);
      }
    }
  }

  /** The lines that the pairs select on the first side. */
  ghost function Selected(a: seq<Line>, ps: seq<(nat, nat)>): seq<Line>
    requires forall k :: 0 <= k < |ps| ==> ps[k].0 < |a|
  {
    seq(|ps|, k requires 0 <= k < |ps| => a[ps[k].0])
  }

  lemma {:induction false} MatchingSelectsSubsequences(a: seq<Line>, b: seq<Line>, ps: seq<(nat, nat)>, k: nat, i: nat,
          j: nat)
    requires Matching(a, b, ps, 0, 0)
    requires k <= |ps| && i <= |a| && j <= |b|
    requires forall l :: k <= l < |ps| ==> i <= ps[l].0 && j <= ps[l].1
    ensures SubsequenceFrom(Selected(a, ps), k, a, i) && SubsequenceFrom(Selected(a, ps), k, b, j)
    decreases |a| - i + |b| - j
  {
    if k < |ps| {
      if ps[k].0 > i {
        MatchingSelectsSubsequences(a, b, ps, k, i + 1, j);
      } else if ps[k].1 > j {
        MatchingSelectsSubsequences(a, b, ps, k, i, j + 1);
      } else {
        MatchingSelectsSubsequences(a, b, ps, k + 1, i + 1, j + 1);
      }
    }
  }

  /** Soundness and optimality: the pairs match equal lines in order, they spell a common
      subsequence, and no common subsequence of the two inputs is longer. */
  lemma PairsAreOptimal(a: seq<Line>, b: seq<Line>)
    ensures Matching(a, b, Pairs(a, b), 0, 0)
    ensures Subsequence(Selected(a, Pairs(a, b)), a) && Subsequence(Selected(a, Pairs(a, b)), b)
    ensures forall c :: Subsequence(c, a) && Subsequence(c, b) ==> |c| <= |Pairs(a, b)|
  {
    TraceIsMatching(a, b, 0, 0);
    MatchingSelectsSubsequences(a, b, Pairs(a, b), 0, 0, 0);
    forall c | Subsequence(c, a) && Subsequence(c, b)
      ensures |c| <= |Pairs(a, b)|
    {
      LenIsUpperBound(c, 0, a, b, 0, 0);
    }
  }

  /** A text traced against itself gives the identity. */
  lemma {:induction false} TraceOfSelf(a: seq<Line>, i: nat)
    requires i <= |a|
    ensures |Trace(a, a, i, i)| == |a| - i
    ensures forall k :: 0 <= k < |a| - i ==> Trace(a, a, i, i)[k] == (i + k, i + k)
    decreases |a| - i
  {
    hide Len;
    if i < |a| {
      TraceOfSelf(a, i + 1);
      assert Trace(a, a, i, i) == [(i, i)] + Trace(a, a, i + 1, i + 1);
      hide Trace;
    }
  }

  ghost predicate RowDone(a: seq<Line>, b: seq<Line>, dp: array2<nat>, i: nat, j: nat)
    requires i <= |a| && j <= |b| && dp.Length0 == |a| + 1 && dp.Length1 == |b| + 1
    reads dp
  {
    forall q: nat :: j <= q <= |b| ==> dp[i, q] == Len(a, b, i, q)
  }

  method FillRow(a: seq<Line>, b: seq<Line>, dp: array2<nat>, i: nat)
    requires i < |a| && dp.Length0 == |a| + 1 && dp.Length1 == |b| + 1
    requires RowDone(a, b, dp, i + 1, 0) && dp[i, |b|] == 0
    modifies dp
    ensures RowDone(a, b, dp, i, 0)
    ensures forall p: nat, q: nat :: p <= |a| && q <= |b| && p != i ==> dp[p, q] == old(dp[p, q])
  {
    var j := |b|;
    while j > 0
      invariant 0 <= j <= |b|
      invariant RowDone(a, b, dp, i + 1, 0) && RowDone(a, b, dp, i, j)
      invariant forall p: nat, q: nat :: p <= |a| && q <= |b| && p != i ==> dp[p, q] == old(dp[p, q])
    {
      j := j - 1;
      dp[i, j] := if a[i] == b[j] then dp[i + 1, j + 1] + 1
                  else if dp[i + 1, j] >= dp[i, j + 1] then dp[i + 1, j] else dp[i, j + 1];
    }
  }

  /** The bottom-up table, last row first and each row from its right end. */
  method FillTable(a: seq<Line>, b: seq<Line>) returns (dp: array2<nat>)
    ensures dp.Length0 == |a| + 1 && dp.Length1 == |b| + 1
    ensures forall i: nat :: i <= |a| ==> RowDone(a, b, dp, i, 0)
  {
    var n, m := |a|, |b|;
    dp := new nat[n + 1, m + 1]((_, _) => 0);
    var i := n;
    while i > 0
      invariant 0 <= i <= n
      invariant forall p: nat, q: nat :: i <= p <= n && q <= m ==> dp[p, q] == Len(a, b, p, q)
      invariant forall p: nat :: p <= n ==> dp[p, m] == 0
    {
      i := i - 1;
      FillRow(a, b, dp, i);
    }
  }

  /** One step of the walk. */
  lemma TraceGoesOn(a: seq<Line>, b: seq<Line>, pairs: seq<(nat, nat)>, i: nat, j: nat)
    requires i <= |a| && j <= |b|
    ensures i == |a| || j == |b| ==> pairs + Trace(a, b, i, j) == pairs
    ensures i < |a| && j < |b| ==>
      pairs + Trace(a, b, i, j) ==
        if a[i] == b[j] then pairs + [(i, j)] + Trace(a, b, i + 1, j + 1)
        else if Len(a, b, i + 1, j) >= Len(a, b, i, j + 1) then pairs + Trace(a, b, i + 1, j)
        else pairs + Trace(a, b, i, j + 1)
  {
    hide Len;
  }

  method LcsPairs(a: seq<Line>, b: seq<Line>) returns (pairs: seq<(nat, nat)>)
    ensures pairs == Pairs(a, b)
    ensures Matching(a, b, pairs, 0, 0)
    ensures forall c :: Subsequence(c, a) && Subsequence(c, b) ==> |c| <= |pairs|
  {
    hide Len, Trace, Matching, Subsequence;
    var dp := FillTable(a, b);
    pairs := [];
    var i, j := 0, 0;
    while i < |a| && j < |b|
      invariant 0 <= i <= |a| && 0 <= j <= |b|
      invariant pairs + Trace(a, b, i, j) == Pairs(a, b)
      invariant forall p: nat :: p <= |a| ==> RowDone(a, b, dp, p, 0)
      decreases |a| - i + |b| - j
    {
      assert RowDone(a, b, dp, i + 1, 0) && RowDone(a, b, dp, i, 0);
      TraceGoesOn(a, b, pairs, i, j);
      if a[i] == b[j] {
        pairs := pairs + [(i, j)];
        i, j := i + 1, j + 1;
      } else if dp[i + 1, j] >= dp[i, j + 1] {
        i := i + 1;
      } else {
        j := j + 1;
      }
    }
    TraceGoesOn(a, b, pairs, i, j);
    PairsAreOptimal(a, b);
  }
}
