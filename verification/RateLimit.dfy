/** The in-memory sliding-window limiter: per key, the times of the requests let through. */
module RateLimit {

  datatype Verdict = Admitted | Rejected(retryAfter: int)

  /** `RateLimit`; `limit` and `window` are fixed per key in a run. */
  datatype Limit = Limit(limit: int, window: real)

  /** `int(x)` truncates toward zero. */
  function Truncated(x: real): int {
    if x >= 0.0 then x.Floor else -((-x).Floor)
  }

  function Expired(bucket: seq<real>, cutoff: real): seq<real> {
    if bucket != [] && bucket[0] < cutoff then Expired(bucket[1..], cutoff) else bucket
  }

  function RetryAfter(bucket: seq<real>, window: real, now: real): int {
    if bucket == [] then Truncated(window)
    else
      var wait := Truncated(window - (now - bucket[0]));
      if wait > 1 then wait else 1
  }

  function Decide(bucket: seq<real>, l: Limit, now: real): Verdict {
    var live := Expired(bucket, now - l.window);
    if |live| >= l.limit then Rejected(RetryAfter(live, l.window, now)) else Admitted
  }

  function After(bucket: seq<real>, l: Limit, now: real): seq<real> {
    var live := Expired(bucket, now - l.window);
    if |live| >= l.limit then live else live + [now]
  }

  function BucketOf(hits: map<string, seq<real>>, key: string): seq<real> {
    if key in hits then hits[key] else []
  }

  class Limiter {
    var hits: map<string, seq<real>>

    constructor ()
      ensures hits == map[]
    {
      hits := map[];
    }

    method EnforceInMemory(key: string, l: Limit, now: real) returns (verdict: Verdict)
      modifies this
      ensures verdict == Decide(BucketOf(old(hits), key), l, now)
      ensures hits == old(hits)[key := After(BucketOf(old(hits), key), l, now)]
    {
      var cutoff := now - l.window;
      var bucket := BucketOf(hits, key);
      ghost var before := bucket;
      while bucket != [] && bucket[0] < cutoff
        invariant Expired(bucket, cutoff) == Expired(before, cutoff)
      {
        bucket := bucket[1..];
      }
      hits := hits[key := bucket];
      if |bucket| >= l.limit {
        return Rejected(RetryAfter(bucket, l.window, now));
      }
      hits := hits[key := bucket + [now]];
      return Admitted;
    }

    /**
     `enforce_rate_limit`: a limit of zero or less limits nothing; a count within the limit lets the
     request through without touching memory; everything else, a count above the limit included,
     is decided in memory, because the rejection raised on the count is caught like a failure.
     */
    method EnforceRateLimit(key: string, l: Limit, now: real, redis: RedisReply) returns (verdict: Verdict)
      modifies this
      ensures SkipsMemory(redis, l) ==> verdict == Admitted && hits == old(hits)
      ensures !SkipsMemory(redis, l) ==>
                && verdict == Decide(BucketOf(old(hits), key), l, now)
                && hits == old(hits)[key := After(BucketOf(old(hits), key), l, now)]
    {
      if l.limit <= 0 {
        return Admitted;
      }
      if redis.Count? && redis.n <= l.limit {
        return Admitted;
      }
      verdict := EnforceInMemory(key, l, now);
    }
  }

  /** What the counter in Redis answers: nothing configured or reachable, a failure, or a count. */
  datatype RedisReply = Unavailable | Failed | Count(n: int)

  predicate WithinCount(redis: RedisReply, l: Limit) { redis.Count? && redis.n <= l.limit }

  /** The request is let through without a look at memory. */
  predicate SkipsMemory(redis: RedisReply, l: Limit) { l.limit <= 0 || WithinCount(redis, l) }

  // ---------- Whole runs ----------

  /** A request, the fixed window in which Redis counts it, and what Redis answered. */
  datatype Request = Request(key: string, now: real, slot: int, redis: RedisReply)

  /** All buckets after some requests, each key under its own limit. */
  function Hits(reqs: seq<Request>, limits: string -> Limit): map<string, seq<real>> {
    if reqs == [] then map[]
    else
      var before, r := Hits(reqs[..|reqs| - 1], limits), reqs[|reqs| - 1];
      if SkipsMemory(r.redis, limits(r.key)) then before
      else before[r.key := After(BucketOf(before, r.key), limits(r.key), r.now)]
  }

  /** Whether the last of some requests is let through by memory. */
  predicate LastAdmitted(reqs: seq<Request>, limits: string -> Limit)
    requires reqs != []
  {
    var r := reqs[|reqs| - 1];
    && !SkipsMemory(r.redis, limits(r.key))
    && Decide(BucketOf(Hits(reqs[..|reqs| - 1], limits), r.key), limits(r.key), r.now).Admitted?
  }

  /** Whether the last of some requests is let through at all. */
  predicate LastPasses(reqs: seq<Request>, limits: string -> Limit)
    requires reqs != []
  {
    var r := reqs[|reqs| - 1];
    SkipsMemory(r.redis, limits(r.key)) || LastAdmitted(reqs, limits)
  }

  /** The times at which memory let requests for a key through, over the whole run. */
  function Admissions(reqs: seq<Request>, limits: string -> Limit, key: string): seq<real> {
    if reqs == [] then []
    else
      Admissions(reqs[..|reqs| - 1], limits, key) +
      if reqs[|reqs| - 1].key == key && LastAdmitted(reqs, limits) then [reqs[|reqs| - 1].now] else []
  }

  /** The clock never goes back. */
  predicate Ordered(reqs: seq<Request>) {
    forall i, j | 0 <= i < j < |reqs| :: reqs[i].now <= reqs[j].now
  }

  /** How many of some times lie in the closed interval from `lo` to `hi`. */
  function CountIn(times: seq<real>, lo: real, hi: real): nat {
    if times == [] then 0
    else CountIn(times[..|times| - 1], lo, hi) + if lo <= times[|times| - 1] <= hi then 1 else 0
  }

  lemma CountSnoc(times: seq<real>, t: real, lo: real, hi: real)
    ensures CountIn(times + [t], lo, hi) == CountIn(times, lo, hi) + if lo <= t <= hi then 1 else 0
  {
    assert (times + [t])[..|times|] == times;
  }

  lemma {:induction false} CountWider(times: seq<real>, lo: real, hi: real, lo': real, hi': real)
    requires forall k | 0 <= k < |times| && lo <= times[k] <= hi :: lo' <= times[k] <= hi'
    ensures CountIn(times, lo, hi) <= CountIn(times, lo', hi')
  {
    if times != [] {
      CountWider(times[..|times| - 1], lo, hi, lo', hi');
    }
  }

  lemma {:induction false} CountNone(times: seq<real>, lo: real, hi: real)
    requires forall k | 0 <= k < |times| :: !(lo <= times[k] <= hi)
    ensures CountIn(times, lo, hi) == 0
  {
    if times != [] {
      CountNone(times[..|times| - 1], lo, hi);
    }
  }

  lemma {:induction false} CountAll(times: seq<real>, lo: real, hi: real)
    requires forall k | 0 <= k < |times| :: lo <= times[k] <= hi
    ensures CountIn(times, lo, hi) == |times|
  {
    if times != [] {
      CountAll(times[..|times| - 1], lo, hi);
    }
  }

  lemma {:induction false} CountConcat(a: seq<real>, b: seq<real>, lo: real, hi: real)
    ensures CountIn(a + b, lo, hi) == CountIn(a, lo, hi) + CountIn(b, lo, hi)
  {
    if b == [] {
      assert a + b == a;
    } else {
      var n := |b| - 1;
      CountConcat(a, b[..n], lo, hi);
      CountSnoc(a + b[..n], b[n], lo, hi);
      assert a + b == a + b[..n] + [b[n]];
    }
  }

  predicate Sorted(times: seq<real>) {
    forall i, j | 0 <= i < j < |times| :: times[i] <= times[j]
  }

  /** What expiry drops lies before the cutoff, what it keeps does not. */
  lemma {:induction false} ExpiredSplits(bucket: seq<real>, cutoff: real)
    requires Sorted(bucket)
    ensures |Expired(bucket, cutoff)| <= |bucket|
    ensures var n := |bucket| - |Expired(bucket, cutoff)|;
            && Expired(bucket, cutoff) == bucket[n..]
            && (forall k | 0 <= k < n :: bucket[k] < cutoff)
            && (forall k | n <= k < |bucket| :: bucket[k] >= cutoff)
  {
    if bucket != [] && bucket[0] < cutoff {
      ExpiredSplits(bucket[1..], cutoff);
      var n := |bucket[1..]| - |Expired(bucket[1..], cutoff)|;
      assert bucket[1..][n..] == bucket[n + 1..];
      assert forall k | 0 <= k < |bucket| - 1 :: bucket[1..][k] == bucket[k + 1];
      assert forall k | 0 < k < |bucket| :: bucket[k] == bucket[1..][k - 1];
    }
  }

  /** The bucket is the tail of all admissions; the rest lies before the last cutoff. */
  ghost predicate TailOf(bucket: seq<real>, all: seq<real>, now: real, window: real) {
    && |bucket| <= |all| && bucket == all[|all| - |bucket|..]
    && Sorted(all) && (forall k | 0 <= k < |all| :: all[k] <= now)
    && forall k | 0 <= k < |all| :: k < |all| - |bucket| ==> all[k] < now - window
  }

  predicate NoneBefore(times: seq<real>, cutoff: real) {
    forall k | 0 <= k < |times| :: times[k] >= cutoff
  }

  lemma LiveIsTail(bucket: seq<real>, all: seq<real>, before: real, now: real, window: real)
    requires TailOf(bucket, all, before, window) && before <= now
    ensures TailOf(Expired(bucket, now - window), all, now, window)
    ensures NoneBefore(Expired(bucket, now - window), now - window)
  {
    var cutoff, m := now - window, |all| - |bucket|;
    ExpiredSplits(bucket, cutoff);
    var live := Expired(bucket, cutoff);
    var n := |all| - |live|;
    assert live == all[n..];
    forall k | 0 <= k < n
      ensures all[k] < cutoff
    {
      if k >= m {
        assert bucket[k - m] == all[k];
      }
    }
  }

  lemma CountTail(live: seq<real>, all: seq<real>, now: real, window: real)
    requires TailOf(live, all, now, window)
    requires NoneBefore(live, now - window)
    ensures CountIn(all, now - window, now) == |live|
  {
    hide CountIn, Sorted;
    var n := |all| - |live|;
    assert all == all[..n] + live;
    assert forall k | 0 <= k < |live| :: live[k] == all[n + k];
    CountConcat(all[..n], live, now - window, now);
    CountNone(all[..n], now - window, now);
    CountAll(live, now - window, now);
  }

  lemma TailOfNothing(now: real, window: real)
    ensures TailOf([], [], now, window)
  {
  }

  lemma TailSnoc(live: seq<real>, all: seq<real>, now: real, window: real)
    requires TailOf(live, all, now, window)
    ensures TailOf(live + [now], all + [now], now, window)
  {
  }

  lemma TailStep(bucket: seq<real>, all: seq<real>, before: real, l: Limit, now: real)
    requires TailOf(bucket, all, before, l.window) && before <= now
    ensures Decide(bucket, l, now).Admitted? ==> TailOf(After(bucket, l, now), all + [now], now, l.window)
    ensures Decide(bucket, l, now).Rejected? ==> TailOf(After(bucket, l, now), all, now, l.window)
    ensures Decide(bucket, l, now).Admitted? <==> CountIn(all, now - l.window, now) < l.limit
  {
    LiveIsTail(bucket, all, before, now, l.window);
    var live := Expired(bucket, now - l.window);
    CountTail(live, all, now, l.window);
    TailSnoc(live, all, now, l.window);
  }

  lemma {:induction false} BucketIsTail(reqs: seq<Request>, limits: string -> Limit, key: string, now: real)
    requires Ordered(reqs) && forall k | 0 <= k < |reqs| :: reqs[k].now <= now
    ensures TailOf(BucketOf(Hits(reqs, limits), key), Admissions(reqs, limits, key), now, limits(key).window)
  {
    hide Decide, After, Expired, TailOf, CountIn;
    if reqs != [] {
      var init, r := reqs[..|reqs| - 1], reqs[|reqs| - 1];
      BucketIsTail(init, limits, key, r.now);
      var bucket, all := BucketOf(Hits(init, limits), key), Admissions(init, limits, key);
      if r.key == key && !SkipsMemory(r.redis, limits(key)) {
        TailStep(bucket, all, r.now, limits(key), r.now);
      }
      assert all + [] == all;
      TailLater(BucketOf(Hits(reqs, limits), key), Admissions(reqs, limits, key), r.now, now, limits(key).window);
    } else {
      TailOfNothing(now, limits(key).window);
    }
  }

  lemma TailLater(bucket: seq<real>, all: seq<real>, before: real, now: real, window: real)
    requires TailOf(bucket, all, before, window) && before <= now
    ensures TailOf(bucket, all, now, window)
  {
  }

  /**
   With a clock that never goes back, memory lets a request through if and only if it is asked and
   fewer than `limit` of its own admissions under that key lie in the closed window ending now.
   Neither rejected requests nor those let through on their count are remembered.
   */
  lemma AdmittedIff(reqs: seq<Request>, limits: string -> Limit)
    requires Ordered(reqs) && reqs != []
    ensures var init, r := reqs[..|reqs| - 1], reqs[|reqs| - 1];
            var l := limits(r.key);
            LastAdmitted(reqs, limits) <==>
            !SkipsMemory(r.redis, l) && CountIn(Admissions(init, limits, r.key), r.now - l.window, r.now) < l.limit
  {
    hide Hits, Admissions, After, Decide, CountIn, Expired;
    var init, r := reqs[..|reqs| - 1], reqs[|reqs| - 1];
    BucketIsTail(init, limits, r.key, r.now);
    TailStep(BucketOf(Hits(init, limits), r.key), Admissions(init, limits, r.key), r.now, limits(r.key), r.now);
  }

  /**
   A request gets through if and only if its key has no limit, the count in Redis is within it, or
   memory has room for it. A count above the limit rejects nobody by itself.
   */
  lemma PassesIff(reqs: seq<Request>, limits: string -> Limit)
    requires Ordered(reqs) && reqs != []
    ensures var init, r := reqs[..|reqs| - 1], reqs[|reqs| - 1];
            var l := limits(r.key);
            LastPasses(reqs, limits) <==>
            || l.limit <= 0 || WithinCount(r.redis, l)
            || CountIn(Admissions(init, limits, r.key), r.now - l.window, r.now) < l.limit
  {
    hide LastAdmitted, Admissions, CountIn;
    AdmittedIff(reqs, limits);
  }

  lemma AdmissionsAreBefore(reqs: seq<Request>, limits: string -> Limit, key: string, now: real)
    requires Ordered(reqs) && forall k | 0 <= k < |reqs| :: reqs[k].now <= now
    ensures forall k | 0 <= k < |Admissions(reqs, limits, key)| :: Admissions(reqs, limits, key)[k] <= now
  {
    hide Admissions, Hits;
    BucketIsTail(reqs, limits, key, now);
  }

  /** Every closed interval as long as the window holds at most `limit` admissions by memory. */
  lemma {:induction false} WindowBound(reqs: seq<Request>, limits: string -> Limit, key: string, from: real)
    requires Ordered(reqs) && limits(key).limit >= 0
    ensures CountIn(Admissions(reqs, limits, key), from, from + limits(key).window) <= limits(key).limit
  {
    hide CountIn, LastAdmitted, Hits;
    if reqs != [] {
      var init, r := reqs[..|reqs| - 1], reqs[|reqs| - 1];
      WindowBound(init, limits, key, from);
      if r.key == key && LastAdmitted(reqs, limits) {
        AdmissionsAreBefore(init, limits, key, r.now);
        AdmittedIff(reqs, limits);
        BoundSnoc(Admissions(init, limits, key), r.now, from, limits(key));
      } else {
        assert Admissions(reqs, limits, key) == Admissions(init, limits, key);
      }
    } else {
      CountNone([], from, from + limits(key).window);
    }
  }

  lemma BoundSnoc(all: seq<real>, now: real, from: real, l: Limit)
    requires forall k | 0 <= k < |all| :: all[k] <= now
    requires CountIn(all, now - l.window, now) < l.limit && CountIn(all, from, from + l.window) <= l.limit
    ensures CountIn(all + [now], from, from + l.window) <= l.limit
  {
    CountSnoc(all, now, from, from + l.window);
    if from <= now <= from + l.window {
      CountWider(all, from, from + l.window, now - l.window, now);
    }
  }

  /** A key's bucket is the work of that key's requests alone. */
  lemma {:induction false} KeysAreIndependent(reqs: seq<Request>, limits: string -> Limit, key: string)
    ensures BucketOf(Hits(reqs, limits), key) == BucketOf(Hits(Only(reqs, key), limits), key)
  {
    if reqs != [] {
      var init, r := reqs[..|reqs| - 1], reqs[|reqs| - 1];
      KeysAreIndependent(init, limits, key);
      if r.key == key {
        assert Only(reqs, key)[..|Only(reqs, key)| - 1] == Only(init, key);
      } else {
        assert Only(reqs, key) == Only(init, key);
      }
    }
  }

  function Only(reqs: seq<Request>, key: string): seq<Request> {
    if reqs == [] then []
    else Only(reqs[..|reqs| - 1], key) + if reqs[|reqs| - 1].key == key then [reqs[|reqs| - 1]] else []
  }

  // ---------- Redis and memory together ----------

  /** Redis counts at least the requests of a key and fixed window that it has answered so far. */
  predicate Counts(reqs: seq<Request>) {
    reqs == [] ||
    (var init, r := reqs[..|reqs| - 1], reqs[|reqs| - 1];
     Counts(init) && (r.redis.Count? ==> r.redis.n > Answered(init, r.key, r.slot)))
  }

  function Answered(reqs: seq<Request>, key: string, slot: int): nat {
    if reqs == [] then 0
    else
      var r := reqs[|reqs| - 1];
      Answered(reqs[..|reqs| - 1], key, slot) + if r.key == key && r.slot == slot && r.redis.Count? then 1 else 0
  }

  /** How many requests of a key and fixed window Redis lets through. */
  function LetByCount(reqs: seq<Request>, limits: string -> Limit, key: string, slot: int): nat {
    if reqs == [] then 0
    else
      var r := reqs[|reqs| - 1];
      LetByCount(reqs[..|reqs| - 1], limits, key, slot) +
      if r.key == key && r.slot == slot && WithinCount(r.redis, limits(key)) then 1 else 0
  }

  /** How many requests of a key and fixed window get through between two times, for either reason. */
  function Passed(reqs: seq<Request>, limits: string -> Limit, key: string, slot: int, lo: real, hi: real): nat {
    if reqs == [] then 0
    else
      var r := reqs[|reqs| - 1];
      Passed(reqs[..|reqs| - 1], limits, key, slot, lo, hi) +
      if r.key == key && r.slot == slot && lo <= r.now <= hi && LastPasses(reqs, limits) then 1 else 0
  }

  lemma {:induction false} CountLetsAtMostLimit(reqs: seq<Request>, limits: string -> Limit, key: string, slot: int)
    requires Counts(reqs) && limits(key).limit > 0
    ensures LetByCount(reqs, limits, key, slot) <= Answered(reqs, key, slot)
    ensures LetByCount(reqs, limits, key, slot) <= limits(key).limit
  {
    if reqs != [] {
      CountLetsAtMostLimit(reqs[..|reqs| - 1], limits, key, slot);
    }
  }

  lemma {:induction false} PassedInTwoWays(reqs: seq<Request>, limits: string -> Limit, key: string, slot: int, lo: real, hi: real)
    requires limits(key).limit > 0
    ensures Passed(reqs, limits, key, slot, lo, hi) <=
            LetByCount(reqs, limits, key, slot) + CountIn(Admissions(reqs, limits, key), lo, hi)
  {
    hide LastAdmitted, Hits;
    if reqs != [] {
      var init, r := reqs[..|reqs| - 1], reqs[|reqs| - 1];
      PassedInTwoWays(init, limits, key, slot, lo, hi);
      CountSnoc(Admissions(init, limits, key), r.now, lo, hi);
      assert Admissions(init, limits, key) + [] == Admissions(init, limits, key);
    }
  }

  /**
   Of the requests that Redis counts together, at most twice the limit get through within one
   window's length: as many as Redis lets through, and as many again as memory does.
   */
  lemma AtMostTwiceTheLimit(reqs: seq<Request>, limits: string -> Limit, key: string, slot: int, from: real)
    requires Ordered(reqs) && Counts(reqs) && limits(key).limit > 0
    ensures Passed(reqs, limits, key, slot, from, from + limits(key).window) <= 2 * limits(key).limit
  {
    CountLetsAtMostLimit(reqs, limits, key, slot);
    PassedInTwoWays(reqs, limits, key, slot, from, from + limits(key).window);
    WindowBound(reqs, limits, key, from);
  }

  /** Requests that come all at once and are counted one by one. */
  function Burst(key: string, n: nat): seq<Request> {
    if n == 0 then [] else Burst(key, n - 1) + [Request(key, 0.0, 0, Count(n))]
  }

  lemma {:induction false} BurstAtOnce(key: string, n: nat)
    ensures |Burst(key, n)| == n && forall k | 0 <= k < n :: Burst(key, n)[k].now == 0.0
  {
    if n > 0 {
      BurstAtOnce(key, n - 1);
    }
  }

  lemma {:induction false} BurstIsCounted(key: string, n: nat)
    ensures Counts(Burst(key, n)) && Answered(Burst(key, n), key, 0) == n
  {
    hide Burst, Ordered;
    if n == 0 {
      BurstAtOnce(key, 0);
    } else {
      BurstIsCounted(key, n - 1);
      BurstEnd(key, n);
      CountedNext(Burst(key, n), Burst(key, n - 1), n);
    }
  }

  lemma CountedNext(reqs: seq<Request>, init: seq<Request>, n: nat)
    requires reqs != [] && reqs[..|reqs| - 1] == init && Counts(init)
    requires var r := reqs[|reqs| - 1]; r.redis == Count(n) && n == Answered(init, r.key, r.slot) + 1
    ensures Counts(reqs) && Answered(reqs, reqs[|reqs| - 1].key, reqs[|reqs| - 1].slot) == n
  {
  }

  lemma BurstEnd(key: string, n: nat)
    requires n > 0
    ensures |Burst(key, n)| == n && Ordered(Burst(key, n))
    ensures Burst(key, n)[..n - 1] == Burst(key, n - 1) && Burst(key, n)[n - 1] == Request(key, 0.0, 0, Count(n))
  {
    BurstAtOnce(key, n);
    BurstAtOnce(key, n - 1);
  }

  /** How many of a burst of `n` memory lets through: none within the limit, then up to `limit`. */
  function InMemory(n: nat, limit: nat): nat {
    if n <= limit then 0 else if n <= 2 * limit then n - limit else limit
  }

  lemma {:induction false} BurstAdmissions(key: string, n: nat, limits: string -> Limit)
    requires limits(key).limit > 0 && limits(key).window >= 0.0
    ensures CountIn(Admissions(Burst(key, n), limits, key), -limits(key).window, 0.0) == InMemory(n, limits(key).limit)
  {
    hide LastAdmitted, Hits, CountIn, Burst, Ordered, Admissions;
    if n > 0 {
      BurstAdmissions(key, n - 1, limits);
      BurstEnd(key, n);
      AdmittedIff(Burst(key, n), limits);
      AdmissionCounts(Burst(key, n), limits, key);
    } else {
      NothingAdmitted(key, limits);
    }
  }

  lemma NothingAdmitted(key: string, limits: string -> Limit)
    ensures CountIn(Admissions(Burst(key, 0), limits, key), -limits(key).window, 0.0) == 0
  {
  }

  lemma AdmissionCounts(reqs: seq<Request>, limits: string -> Limit, key: string)
    requires reqs != [] && reqs[|reqs| - 1].key == key && reqs[|reqs| - 1].now == 0.0 && limits(key).window >= 0.0
    ensures var lo := -limits(key).window;
            CountIn(Admissions(reqs, limits, key), lo, 0.0) ==
            CountIn(Admissions(reqs[..|reqs| - 1], limits, key), lo, 0.0) + if LastAdmitted(reqs, limits) then 1 else 0
  {
    hide LastAdmitted, CountIn;
    var before := Admissions(reqs[..|reqs| - 1], limits, key);
    CountSnoc(before, 0.0, -limits(key).window, 0.0);
    assert before + [] == before;
  }

  lemma BurstLast(key: string, n: nat, limits: string -> Limit)
    requires limits(key).limit > 0 && limits(key).window >= 0.0 && n > 0
    ensures |Burst(key, n)| == n && (LastPasses(Burst(key, n), limits) <==> n <= 2 * limits(key).limit)
  {
    hide LastPasses, Admissions, CountIn, Burst, Ordered, Hits;
    BurstAdmissions(key, n - 1, limits);
    BurstEnd(key, n);
    PassesIff(Burst(key, n), limits);
  }

  /** Twice the limit is reached: of a burst the first `limit` pass on their count, as many again in memory. */
  lemma {:induction false} BurstPassesTwice(key: string, n: nat, limits: string -> Limit)
    requires limits(key).limit > 0 && limits(key).window >= 0.0
    ensures Counts(Burst(key, n)) && Ordered(Burst(key, n))
    ensures Passed(Burst(key, n), limits, key, 0, 0.0, limits(key).window) ==
            if n <= 2 * limits(key).limit then n else 2 * limits(key).limit
  {
    hide LastPasses, Burst, Counts;
    BurstAtOnce(key, n);
    BurstIsCounted(key, n);
    if n > 0 {
      BurstPassesTwice(key, n - 1, limits);
      BurstLast(key, n, limits);
      BurstEnd(key, n);
    }
  }

  /**
   The hint given with a rejection is short by up to a second: a request made after exactly the
   seconds hinted, with none in between, gets through if and only if less than a second was left.
   */
  lemma RetryHintSuffices(bucket: seq<real>, l: Limit, now: real)
    requires Sorted(bucket) && Decide(bucket, l, now).Rejected?
    requires var live := Expired(bucket, now - l.window);
             |live| == l.limit > 0
    ensures var live := Expired(bucket, now - l.window);
            var later := now + Decide(bucket, l, now).retryAfter as real;
            Decide(After(bucket, l, now), l, later).Admitted? <==> l.window - (now - live[0]) < 1.0
  {
    var live := Expired(bucket, now - l.window);
    var left := l.window - (now - live[0]);
    ExpiredSplits(bucket, now - l.window);
    assert live[0] == bucket[|bucket| - |live|] && left >= 0.0;
    var later := now + Decide(bucket, l, now).retryAfter as real;
    ExpiredSplits(live, later - l.window);
  }

  /** It is too short for one request a minute, asked again half a second after the first. */
  lemma RetryHintTooShort()
    ensures var l, bucket, now := Limit(1, 60.0), [0.0], 0.5;
            && Decide(bucket, l, now) == Rejected(59)
            && Decide(After(bucket, l, now), l, now + 59.0).Rejected?
  {
    assert Expired([0.0], -59.5) == [0.0] && Expired([0.0], -0.5) == [0.0];
    assert Truncated(59.5) == 59;
  }
}
