/** Which of the longest pairings the line merge takes: the one that comes earliest in the second text. */
module EarliestPairs {
  import opened Lcs

  lemma TailMatches(a: seq<Line>, b: seq<Line>, ps: seq<(nat, nat)>, i: nat, j: nat)
    requires ps != [] && Matching(a, b, ps, i, j)
    ensures Matching(a, b, ps[1..], i + 1, j + 1)
  {
    forall k | 0 <= k < |ps| - 1 ensures ps[1..][k].0 > i && ps[1..][k].1 > j {
      assert ps[0].0 < ps[k + 1].0 && ps[0].1 < ps[k + 1].1;
    }
  }

  /** No pairing is longer than the table says. */
  lemma {:induction false} MatchingBound(a: seq<Line>, b: seq<Line>, ps: seq<(nat, nat)>, i: nat, j: nat)
    requires i <= |a| && j <= |b| && Matching(a, b, ps, i, j)
    ensures |ps| <= Len(a, b, i, j)
    decreases |a| - i + |b| - j
  {
    if ps != [] {
      assert i <= ps[0].0 < |a| && j <= ps[0].1 < |b|;
      if a[i] == b[j] {
        TailMatches(a, b, ps, i, j);
        MatchingBound(a, b, ps[1..], i + 1, j + 1);
      } else if ps[0].0 != i {
        MatchingBound(a, b, ps, i + 1, j);
      } else {
        MatchingBound(a, b, ps, i, j + 1);
      }
    }
  }

  /** Each pair sits no later in the second text than its counterpart. */
  ghost predicate Before(x: seq<(nat, nat)>, y: seq<(nat, nat)>) {
    |x| == |y| && forall k :: 0 <= k < |x| ==> x[k].1 <= y[k].1
  }

  /** Two pairings crossing at k can be recombined. */
  lemma Recombined(a: seq<Line>, b: seq<Line>, x: seq<(nat, nat)>, y: seq<(nat, nat)>, k: nat, l: nat, i: nat, j: nat)
    requires Matching(a, b, x, i, j) && Matching(a, b, y, i, j) && k <= |x| && l <= |y|
    requires k > 0 && l < |y| ==> x[k - 1].0 < y[l].0 && x[k - 1].1 < y[l].1
    ensures Matching(a, b, x[..k] + y[l..], i, j)
  {
    var ps := x[..k] + y[l..];
    forall p, q | 0 <= p < q < |ps| ensures ps[p].0 < ps[q].0 && ps[p].1 < ps[q].1 {
      if p < k <= q {
        assert ps[p] == x[p] && ps[q] == y[q - k + l];
        assert p < k - 1 ==> x[p].0 < x[k - 1].0 && x[p].1 < x[k - 1].1;
        assert q > k ==> y[l].0 < y[q - k + l].0 && y[l].1 < y[q - k + l].1;
      }
    }
  }

  lemma {:induction false} TraceComesEarliest(a: seq<Line>, b: seq<Line>, ps: seq<(nat, nat)>, i: nat, j: nat)
    requires i <= |a| && j <= |b| && Matching(a, b, ps, i, j) && |ps| == Len(a, b, i, j)
    ensures Before(Trace(a, b, i, j), ps)
    decreases |a| - i + |b| - j, |ps|
  {
    TraceIsMatching(a, b, i, j);
    if ps != [] {
      if a[i] == b[j] {
        TailMatches(a, b, ps, i, j);
        TraceComesEarliest(a, b, ps[1..], i + 1, j + 1);
      } else if Len(a, b, i + 1, j) >= Len(a, b, i, j + 1) {
        if ps[0].0 == i {
          TraceIsMatching(a, b, i + 1, j);
          SkippedComesEarlier(a, b, ps, i, j, |ps| - 1);
        } else {
          TraceComesEarliest(a, b, ps, i + 1, j);
        }
      } else {
        if ps[0].0 != i { MatchingBound(a, b, ps, i + 1, j); }
        TraceComesEarliest(a, b, ps, i, j + 1);
      }
    }
  }

  /** A pairing that uses the first line is not earlier than the walk that skips it: at the first place
      where it would be, the two recombine into a longer pairing, or into one that the walk cannot be
      later than. */
  lemma {:induction false} SkippedComesEarlier(a: seq<Line>, b: seq<Line>, ps: seq<(nat, nat)>, i: nat, j: nat, k: nat)
    requires i < |a| && j < |b| && Matching(a, b, ps, i, j) && |ps| == Len(a, b, i + 1, j) == Len(a, b, i, j)
    requires k < |ps| && ps[0].0 == i
    requires var t := Trace(a, b, i + 1, j); |t| == |ps| && Matching(a, b, t, i + 1, j)
    ensures forall l :: 0 <= l <= k ==> Trace(a, b, i + 1, j)[l].1 <= ps[l].1
    decreases |a| - i + |b| - j, k
  {
    var t := Trace(a, b, i + 1, j);
    if k > 0 { SkippedComesEarlier(a, b, ps, i, j, k - 1); }
    assert Matching(a, b, t, i, j);
    if t[k].1 > ps[k].1 {
      if ps[k].0 < t[k].0 {
        Recombined(a, b, ps, t, k + 1, k, i, j);
        MatchingBound(a, b, ps[..k + 1] + t[k..], i, j);
      } else {
        assert k > 0 && t[k - 1].0 < t[k].0 && t[k - 1].1 <= ps[k - 1].1 < ps[k].1;
        Recombined(a, b, t, ps, k, k, i, j);
        MixedComesLater(a, b, t, ps, i, j, k);
      }
    }
  }

  lemma {:induction false} MixedComesLater(a: seq<Line>, b: seq<Line>, t: seq<(nat, nat)>, ps: seq<(nat, nat)>, i: nat,
          j: nat, k: nat)
    requires i < |a| && j < |b| && 0 < k < |ps| && |t| == |ps| == Len(a, b, i + 1, j) && t == Trace(a, b, i + 1, j)
    requires Matching(a, b, t, i + 1, j) && Matching(a, b, ps, i, j) && Matching(a, b, t[..k] + ps[k..], i, j)
    ensures t[k].1 <= ps[k].1
    decreases |a| - i + |b| - j, 0
  {
    var mixed := t[..k] + ps[k..];
    forall l | 0 <= l < |mixed| ensures mixed[l].0 >= i + 1 {
      if l >= k { assert mixed[l] == ps[l] && ps[0].0 < ps[l].0; }
    }
    TraceComesEarliest(a, b, mixed, i + 1, j);
    assert mixed[k] == ps[k];
  }

  /** Of all longest pairings of equal lines the merge takes the one whose every pair comes first in the
      second text. */
  lemma PairsComeEarliest(a: seq<Line>, b: seq<Line>, ps: seq<(nat, nat)>)
    requires Matching(a, b, ps, 0, 0)
    ensures |ps| <= |Pairs(a, b)|
    ensures |ps| == |Pairs(a, b)| ==> forall k :: 0 <= k < |ps| ==> Pairs(a, b)[k].1 <= ps[k].1
  {
    TraceIsMatching(a, b, 0, 0);
    MatchingBound(a, b, ps, 0, 0);
    if |ps| == |Pairs(a, b)| { TraceComesEarliest(a, b, ps, 0, 0); }
  }
}
