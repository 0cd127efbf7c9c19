/** The last-writer-wins register of a file's path (packages/shared/src/clock/lamport.ts). */
module PathClocks {

  datatype PathClock = PathClock(lamport: int, deviceId: string)

  /** Lexicographic comparison of device ids. */
  predicate StringLess(a: string, b: string) {
    if b == "" then false
    else if a == "" then true
    else a[0] < b[0] || (a[0] == b[0] && StringLess(a[1..], b[1..]))
  }

  function ComparePathClock(a: PathClock, b: PathClock): int {
    if a.lamport != b.lamport then a.lamport - b.lamport
    else if a.deviceId == b.deviceId then 0
    else if StringLess(b.deviceId, a.deviceId) then 1 else -1
  }

  predicate PathClockWins(candidate: PathClock, current: PathClock) {
    ComparePathClock(candidate, current) > 0
  }

  lemma {:induction false} StringLessTotal(a: string, b: string)
    ensures a == b || StringLess(a, b) || StringLess(b, a)
    ensures !(StringLess(a, b) && StringLess(b, a)) && !StringLess(a, a)
  {
    if a != "" && b != "" {
      StringLessTotal(a[1..], b[1..]);
      assert a == [a[0]] + a[1..] && b == [b[0]] + b[1..];
    }
    StringLessIrreflexive(a);
  }

  lemma {:induction false} StringLessIrreflexive(a: string)
    ensures !StringLess(a, a)
  {
    if a != "" { StringLessIrreflexive(a[1..]); }
  }

  lemma {:induction false} StringLessTransitive(a: string, b: string, c: string)
    requires StringLess(a, b) && StringLess(b, c)
    ensures StringLess(a, c)
  {
    if a != "" && a[0] == b[0] == c[0] {
      StringLessTransitive(a[1..], b[1..], c[1..]);
    }
  }

  /** Winning is a strict total order on clocks. */
  lemma WinsIsStrictTotalOrder(a: PathClock, b: PathClock, c: PathClock)
    ensures a == b || PathClockWins(a, b) || PathClockWins(b, a)
    ensures !(PathClockWins(a, b) && PathClockWins(b, a)) && !PathClockWins(a, a)
    ensures PathClockWins(a, b) && PathClockWins(b, c) ==> PathClockWins(a, c)
  {
    StringLessTotal(a.deviceId, b.deviceId);
    StringLessTotal(b.deviceId, c.deviceId);
    StringLessTotal(a.deviceId, c.deviceId);
    if StringLess(b.deviceId, a.deviceId) && StringLess(c.deviceId, b.deviceId) {
      StringLessTransitive(c.deviceId, b.deviceId, a.deviceId);
    }
  }

  /** The higher counter wins, and on equal counters the greater device id. */
  lemma HigherClockWins(a: PathClock, b: PathClock)
    ensures PathClockWins(a, b) <==>
      a.lamport > b.lamport || (a.lamport == b.lamport && StringLess(b.deviceId, a.deviceId))
  {
    StringLessIrreflexive(a.deviceId);
    StringLessTotal(a.deviceId, b.deviceId);
  }

  /** The texts agree before k, where the first ends or has the smaller character. */
  ghost predicate DiffersAt(a: string, b: string, k: nat) {
    k <= |a| && k < |b| && a[..k] == b[..k] && (k == |a| || a[k] < b[k])
  }

  /** The order on device ids is that of the dictionary. */
  lemma {:induction false} DictionaryOrder(a: string, b: string)
    ensures StringLess(a, b) <==> exists k: nat :: DiffersAt(a, b, k)
  {
    if a == "" && b != "" {
      assert DiffersAt(a, b, 0);
    } else if a != "" && b != "" {
      DictionaryOrder(a[1..], b[1..]);
      if a[0] < b[0] { assert DiffersAt(a, b, 0); }
      if a[0] == b[0] && StringLess(a, b) {
        var k: nat :| DiffersAt(a[1..], b[1..], k);
        assert a[..k + 1] == [a[0]] + a[1..][..k] && b[..k + 1] == [b[0]] + b[1..][..k];
        assert DiffersAt(a, b, k + 1);
      }
      if exists k: nat :: DiffersAt(a, b, k) {
        var k: nat :| DiffersAt(a, b, k);
        if k > 0 {
          assert a[..k][0] == a[0] && b[..k][0] == b[0];
          assert a[1..][..k - 1] == a[..k][1..] && b[1..][..k - 1] == b[..k][1..];
          assert DiffersAt(a[1..], b[1..], k - 1);
        }
      }
    }
  }
}
