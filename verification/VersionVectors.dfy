/** Version vectors (packages/shared/src/clock/version-vector.ts). A device that is absent from
    the record counts as 0. */
module VersionVectors {
  import opened Basics

  type VersionVector = map<string, nat>

  function CounterFor(vv: VersionVector, device: string): nat {
    if device in vv then vv[device] else 0
  }

  function Bump(vv: VersionVector, device: string): VersionVector {
    vv[device := CounterFor(vv, device) + 1]
  }

  predicate Dominates(a: VersionVector, b: VersionVector) {
    forall d :: d in b ==> CounterFor(a, d) >= b[d]
  }

  /** Pointwise maximum; a zero counter of b adds no key. */
  function Join(a: VersionVector, b: VersionVector): VersionVector {
    map d | d in a.Keys + b.Keys && (d in a || b[d] > 0) :: Max(CounterFor(a, d), CounterFor(b, d))
  }

  predicate Equals(a: VersionVector, b: VersionVector) {
    Dominates(a, b) && Dominates(b, a)
  }

  predicate StrictlyDominates(a: VersionVector, b: VersionVector) {
    Dominates(a, b) && !Dominates(b, a)
  }

  predicate IsConcurrent(a: VersionVector, b: VersionVector) {
    !Dominates(a, b) && !Dominates(b, a)
  }

  datatype Relation = Equal | Dominating | Dominated | Concurrent

  function CompareVV(a: VersionVector, b: VersionVector): Relation {
    if Dominates(a, b) && Dominates(b, a) then Equal
    else if Dominates(a, b) then Dominating
    else if Dominates(b, a) then Dominated
    else Concurrent
  }

  lemma DominatesPointwise(a: VersionVector, b: VersionVector)
    ensures Dominates(a, b) <==> forall d :: CounterFor(a, d) >= CounterFor(b, d)
  {
    if forall d :: CounterFor(a, d) >= CounterFor(b, d) {
      forall d | d in b ensures CounterFor(a, d) >= b[d] {
        assert CounterFor(a, d) >= CounterFor(b, d);
      }
    }
  }

  lemma DominatesTransitive(a: VersionVector, b: VersionVector, c: VersionVector)
    requires Dominates(a, b) && Dominates(b, c)
    ensures Dominates(a, c)
  {
    forall d | d in c ensures CounterFor(a, d) >= c[d] {
      assert CounterFor(b, d) >= c[d];
    }
  }

  /** The join is the least upper bound of the domination order. */
  lemma JoinIsLeastUpperBound(a: VersionVector, b: VersionVector)
    ensures Dominates(Join(a, b), a) && Dominates(Join(a, b), b)
    ensures forall c :: Dominates(c, a) && Dominates(c, b) ==> Dominates(c, Join(a, b))
  {
    forall c | Dominates(c, a) && Dominates(c, b) ensures Dominates(c, Join(a, b)) {
      forall d | d in Join(a, b) ensures CounterFor(c, d) >= Join(a, b)[d] {
      }
    }
  }

  lemma BumpStrictlyDominates(vv: VersionVector, device: string)
    ensures StrictlyDominates(Bump(vv, device), vv)
    ensures CounterFor(Bump(vv, device), device) == CounterFor(vv, device) + 1
    ensures forall d :: d != device ==> CounterFor(Bump(vv, device), d) == CounterFor(vv, d)
  {
    assert device in Bump(vv, device);
  }

  /** A bumped join is strictly above both sides. */
  lemma BumpedJoinStrictlyDominates(a: VersionVector, b: VersionVector, device: string)
    ensures StrictlyDominates(Bump(Join(a, b), device), a) && StrictlyDominates(Bump(Join(a, b), device), b)
  {
    var j := Join(a, b);
    JoinIsLeastUpperBound(a, b);
    BumpStrictlyDominates(j, device);
    DominatesTransitive(Bump(j, device), j, a);
    DominatesTransitive(Bump(j, device), j, b);
  }

  /** The four relations exclude each other, cover every pair, and turn round when the arguments do. */
  lemma CompareClassifies(a: VersionVector, b: VersionVector)
    ensures CompareVV(a, b).Equal? <==> Equals(a, b)
    ensures CompareVV(a, b).Equal? <==> forall d :: CounterFor(a, d) == CounterFor(b, d)
    ensures CompareVV(a, b).Dominating? <==> StrictlyDominates(a, b)
    ensures CompareVV(a, b).Dominated? <==> CompareVV(b, a).Dominating?
    ensures CompareVV(a, b).Concurrent? <==>
      exists d, e :: CounterFor(a, d) > CounterFor(b, d) && CounterFor(b, e) > CounterFor(a, e)
  {
    DominatesPointwise(a, b);
    DominatesPointwise(b, a);
  }

  method JoinLoop(a: VersionVector, b: VersionVector) returns (result: VersionVector)
    ensures result == Join(a, b)
  {
    result := a;
    var todo := b.Keys;
    while todo != {}
      invariant todo <= b.Keys
      invariant forall d :: d in result <==> d in a || (d in b && d !in todo && b[d] > 0)
      invariant forall d :: d in result ==>
        result[d] == if d in b && d !in todo then Max(CounterFor(a, d), b[d]) else a[d]
    {
      var device :| device in todo;
      var counter := b[device];
      var existing := CounterFor(result, device);
      if counter > existing {
        result := result[device := counter];
      }
      todo := todo - {device};
    }
  }

  method DominatesLoop(a: VersionVector, b: VersionVector) returns (r: bool)
    ensures r <==> Dominates(a, b)
  {
    var todo := b.Keys;
    while todo != {}
      invariant todo <= b.Keys
      invariant forall d :: d in b && d !in todo ==> CounterFor(a, d) >= b[d]
    {
      var device :| device in todo;
      if CounterFor(a, device) < b[device] {
        return false;
      }
      todo := todo - {device};
    }
    return true;
  }
}
