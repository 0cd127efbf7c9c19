/** The fixed-window rate limiter (packages/server/src/ws/rate-limit.ts). */
module RateLimiter {
  import opened Basics

  datatype Window = Window(startedAt: int, count: nat)
  datatype RateLimitResult = RateLimitResult(allowed: bool, remaining: nat, retryAfterMs: nat)

  type Buckets = map<string, Window>

  /** The window a call falls into, counting the call. */
  function Counted(buckets: Buckets, windowMs: int, key: string, at: int): Window {
    if key !in buckets || at - buckets[key].startedAt >= windowMs then Window(at, 1)
    else buckets[key].(count := buckets[key].count + 1)
  }

  class FixedWindowRateLimiter {
    const max: int
    const windowMs: int
    var buckets: Buckets

    constructor (max: int, windowMs: int)
      ensures this.max == Max(1, max) && this.windowMs == Max(1, windowMs) && buckets == map[]
    {
      this.max, this.windowMs, this.buckets := Max(1, max), Max(1, windowMs), map[];
    }

    method Consume(key: string, at: int) returns (r: RateLimitResult)
      modifies this
      ensures var w := Counted(old(buckets), windowMs, key, at);
        && buckets == old(buckets)[key := w]
        && r.allowed == (w.count <= max) && r.remaining == Max(0, max - w.count)
        && r.retryAfterMs == Max(0, windowMs - (at - w.startedAt))
    {
      var state := if key !in buckets || at - buckets[key].startedAt >= windowMs then Window(at, 0) else buckets[key];
      state := state.(count := state.count + 1);
      buckets := buckets[key := state];
      var retryAfterMs := Max(0, windowMs - (at - state.startedAt));
      return RateLimitResult(state.count <= max, Max(0, max - state.count), retryAfterMs);
    }
  }

  // ---- runs ----

  datatype Call = Call(key: string, at: int)

  function BucketsAfter(calls: seq<Call>, windowMs: int): Buckets {
    if calls == [] then map[]
    else
      var before, last := BucketsAfter(calls[..|calls| - 1], windowMs), calls[|calls| - 1];
      before[last.key := Counted(before, windowMs, last.key, last.at)]
  }

  /** The last call of the run is let through. */
  predicate LastAllowed(calls: seq<Call>, max: int, windowMs: int)
    requires calls != []
  {
    var last := calls[|calls| - 1];
    Counted(BucketsAfter(calls[..|calls| - 1], windowMs), windowMs, last.key, last.at).count <= max
  }

  /** How many calls of the key were let through in the half-open interval. */
  function Allowed(calls: seq<Call>, max: int, windowMs: int, key: string, lo: int, hi: int): nat {
    if calls == [] then 0
    else
      var last := calls[|calls| - 1];
      Allowed(calls[..|calls| - 1], max, windowMs, key, lo, hi)
      + (if last.key == key && lo <= last.at < hi && LastAllowed(calls, max, windowMs) then 1 else 0)
  }

  ghost predicate Monotone(calls: seq<Call>) {
    forall i, k :: 0 <= i < k < |calls| ==> calls[i].at <= calls[k].at
  }

  /** The interval has seen nothing yet, part of one window, or part of two; a window's first call
      lies before the interval when its start does. */
  ghost predicate Bounded(calls: seq<Call>, max: int, windowMs: int, key: string, lo: int) {
    var n, buckets := Allowed(calls, max, windowMs, key, lo, lo + windowMs), BucketsAfter(calls, windowMs);
    if key !in buckets then n == 0
    else
      var w := buckets[key];
      && w.count >= 1 && (calls != [] ==> w.startedAt <= calls[|calls| - 1].at)
      && (calls != [] && calls[|calls| - 1].at < lo ==> n == 0)
      && if w.startedAt < lo then n <= Min(w.count, max) - 1
         else if w.startedAt < lo + windowMs then n <= max - 1 + Min(w.count, max)
         else n <= 2 * max - 1
  }

  lemma {:induction false} RunIsBounded(calls: seq<Call>, max: int, windowMs: int, key: string, lo: int)
    requires max >= 1 && windowMs >= 1 && Monotone(calls)
    ensures Bounded(calls, max, windowMs, key, lo)
  {
    if calls != [] {
      var before := calls[..|calls| - 1];
      RunIsBounded(before, max, windowMs, key, lo);
      assert before != [] ==> before[|before| - 1].at <= calls[|calls| - 1].at;
    }
  }

  /** However the calls are spread, with a clock that never goes back at most 2·max - 1 of a key are
      let through in any half-open interval as long as the window. */
  lemma AllowedInAnyInterval(calls: seq<Call>, max: int, windowMs: int, key: string, lo: int)
    requires max >= 1 && windowMs >= 1 && Monotone(calls)
    ensures Allowed(calls, max, windowMs, key, lo, lo + windowMs) <= 2 * max - 1
  {
    RunIsBounded(calls, max, windowMs, key, lo);
  }

  // ---- the bound is reached ----

  /** One call at 0, then max - 1 at 1, then n at the moment the window ends. */
  function Burst(max: nat, windowMs: int, n: nat): seq<Call>
    requires max >= 1
  {
    if n > 0 then Burst(max, windowMs, n - 1) + [Call("k", windowMs)] else Lead(max - 1)
  }

  function Lead(n: nat): seq<Call> {
    if n == 0 then [Call("k", 0)] else Lead(n - 1) + [Call("k", 1)]
  }

  /** One more call of the key, inside the interval or not. */
  lemma OneMoreCall(calls: seq<Call>, c: Call, max: int, windowMs: int, lo: int, buckets: Buckets, n: nat)
    requires Monotone(calls) && (forall x :: x in calls ==> x.at <= c.at) && BucketsAfter(calls, windowMs) == buckets
    requires Allowed(calls, max, windowMs, c.key, lo, lo + windowMs) == n
    ensures Monotone(calls + [c]) && (forall x :: x in calls + [c] ==> x.at <= c.at)
    ensures var w := Counted(buckets, windowMs, c.key, c.at);
      && BucketsAfter(calls + [c], windowMs) == buckets[c.key := w]
      && Allowed(calls + [c], max, windowMs, c.key, lo, lo + windowMs)
           == n + (if lo <= c.at < lo + windowMs && w.count <= max then 1 else 0)
  {
    assert (calls + [c])[..|calls|] == calls;
  }

  lemma {:induction false} LeadCounts(max: nat, windowMs: int, n: nat)
    requires max >= 1 && windowMs >= 2 && n <= max - 1
    ensures Monotone(Lead(n)) && (forall c :: c in Lead(n) ==> c.at <= 1)
    ensures BucketsAfter(Lead(n), windowMs) == map["k" := Window(0, n + 1)]
    ensures Allowed(Lead(n), max, windowMs, "k", 1, 1 + windowMs) == n
  {
    hide BucketsAfter, Allowed, Monotone;
    if n > 0 {
      LeadCounts(max, windowMs, n - 1);
      OneMoreCall(Lead(n - 1), Call("k", 1), max, windowMs, 1, map["k" := Window(0, n)], n - 1);
    } else {
      FirstCall(max, windowMs);
    }
  }

  lemma FirstCall(max: nat, windowMs: int)
    requires windowMs >= 2
    ensures Monotone([Call("k", 0)]) && BucketsAfter([Call("k", 0)], windowMs) == map["k" := Window(0, 1)]
    ensures Allowed([Call("k", 0)], max, windowMs, "k", 1, 1 + windowMs) == 0
  {
    OneMoreCall([], Call("k", 0), max, windowMs, 1, map[], 0);
    assert [] + [Call("k", 0)] == [Call("k", 0)];
  }

  lemma {:induction false} BurstCounts(max: nat, windowMs: int, n: nat)
    requires max >= 1 && windowMs >= 2 && n <= max
    ensures Monotone(Burst(max, windowMs, n)) && (forall c :: c in Burst(max, windowMs, n) ==> c.at <= windowMs)
    ensures BucketsAfter(Burst(max, windowMs, n), windowMs)
      == map["k" := if n == 0 then Window(0, max) else Window(windowMs, n)]
    ensures Allowed(Burst(max, windowMs, n), max, windowMs, "k", 1, 1 + windowMs) == max - 1 + n
  {
    hide BucketsAfter, Allowed, Monotone, Lead;
    if n > 0 {
      BurstCounts(max, windowMs, n - 1);
      OneMoreCall(Burst(max, windowMs, n - 1), Call("k", windowMs), max, windowMs, 1,
                  map["k" := if n == 1 then Window(0, max) else Window(windowMs, n - 1)], max - 1 + (n - 1));
    } else {
      LeadCounts(max, windowMs, max - 1);
    }
  }

  /** No smaller bound holds, for any limit and any window of at least two milliseconds. */
  lemma BoundIsReached(max: nat, windowMs: int)
    requires max >= 1 && windowMs >= 2
    ensures exists calls :: Monotone(calls) && Allowed(calls, max, windowMs, "k", 1, 1 + windowMs) == 2 * max - 1
  {
    BurstCounts(max, windowMs, max);
  }
}
