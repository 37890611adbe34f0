/** The fixed-window rate limiter of src/security/rateLimiter.ts: one bucket per key. */
module RateLimiters {

  const WINDOW_MS := 60_000

  datatype Bucket = Bucket(count: int, windowStart: int)

  type Buckets = map<string, Bucket>

  datatype Consumed = Consumed(accepted: bool, buckets: Buckets)

  function Consume(buckets: Buckets, limit: int, key: string, now: int): Consumed {
    if key !in buckets || now - buckets[key].windowStart >= WINDOW_MS then
      Consumed(true, buckets[key := Bucket(1, now)])
    else if buckets[key].count >= limit then
      Consumed(false, buckets)
    else
      Consumed(true, buckets[key := buckets[key].(count := buckets[key].count + 1)])
  }

  class RateLimiter {
    const limitPerMinute: int
    var buckets: Buckets

    constructor (limitPerMinute: int)
      ensures this.limitPerMinute == limitPerMinute && buckets == map[]
    {
      this.limitPerMinute := limitPerMinute;
      buckets := map[];
    }

    method TryConsume(key: string, now: int) returns (accepted: bool)
      modifies this`buckets
      ensures Consumed(accepted, buckets) == Consume(old(buckets), limitPerMinute, key, now)
    {
      if key !in buckets || now - buckets[key].windowStart >= WINDOW_MS {
        buckets := buckets[key := Bucket(1, now)];
        return true;
      }
      var bucket := buckets[key];
      if bucket.count >= limitPerMinute {
        return false;
      }
      buckets := buckets[key := bucket.(count := bucket.count + 1)];
      return true;
    }
  }

  // ---- Whole runs --------------------------------------------------------------------------

  datatype Call = Call(key: string, at: int)

  ghost predicate Monotone(calls: seq<Call>) {
    forall i, j :: 0 <= i <= j < |calls| ==> calls[i].at <= calls[j].at
  }

  function BucketsAfter(limit: int, calls: seq<Call>): Buckets {
    if calls == [] then map[] else
      var last := calls[|calls| - 1];
      Consume(BucketsAfter(limit, calls[..|calls| - 1]), limit, last.key, last.at).buckets
  }

  predicate LastAccepted(limit: int, calls: seq<Call>)
    requires calls != []
  {
    var last := calls[|calls| - 1];
    Consume(BucketsAfter(limit, calls[..|calls| - 1]), limit, last.key, last.at).accepted
  }

  /** How many calls for `key` were accepted at a time in [from, until). */
  function AcceptedIn(limit: int, calls: seq<Call>, key: string, from: int, until: int): nat {
    if calls == [] then 0 else
      var last := calls[|calls| - 1];
      AcceptedIn(limit, calls[..|calls| - 1], key, from, until)
      + if last.key == key && from <= last.at < until && LastAccepted(limit, calls) then 1 else 0
  }

  /** A limit below one still lets the first call of each window through. */
  function EffectiveLimit(limit: int): int {
    if limit < 1 then 1 else limit
  }

  /** Where `n` accepted calls counted from `from` can have come from: the open window began before
      `from` and one of its calls does not count, or it is at least m windows later and each of the
      windows before it gave at most the limit. */
  ghost predicate Tally(limit: int, n: int, bucket: Bucket, from: int, m: nat) {
    && 1 <= bucket.count <= EffectiveLimit(limit)
    && if bucket.windowStart < from then
         n <= bucket.count - 1
       else
         && from + m * WINDOW_MS <= bucket.windowStart
         && n <= EffectiveLimit(limit) - 1 + m * EffectiveLimit(limit) + bucket.count
  }

  lemma NextWindow(limit: int, n: int, bucket: Bucket, from: int, m: nat, now: int)
    requires Tally(limit, n, bucket, from, m) && bucket.windowStart + WINDOW_MS <= now && from <= now
    ensures Tally(limit, n + 1, Bucket(1, now), from, if bucket.windowStart < from then 0 else m + 1)
  {
    assert (m + 1) * EffectiveLimit(limit) == m * EffectiveLimit(limit) + EffectiveLimit(limit);
  }

  lemma {:induction false} NothingBefore(limit: int, calls: seq<Call>, key: string, from: int, until: int)
    requires Monotone(calls) && calls != [] && calls[|calls| - 1].at < from
    ensures AcceptedIn(limit, calls, key, from, until) == 0
  {
    if |calls| > 1 {
      NothingBefore(limit, calls[..|calls| - 1], key, from, until);
    }
  }

  lemma {:induction false} WindowsSoFar(limit: int, calls: seq<Call>, key: string, from: int, until: int) returns (m: nat)
    requires Monotone(calls)
    ensures key !in BucketsAfter(limit, calls) ==> AcceptedIn(limit, calls, key, from, until) == 0
    ensures key in BucketsAfter(limit, calls) ==>
              && Tally(limit, AcceptedIn(limit, calls, key, from, until), BucketsAfter(limit, calls)[key], from, m)
              && calls != [] && BucketsAfter(limit, calls)[key].windowStart <= calls[|calls| - 1].at
  {
    m := 0;
    if calls != [] {
      var last, earlier := calls[|calls| - 1], calls[..|calls| - 1];
      var before := BucketsAfter(limit, earlier);
      m := WindowsSoFar(limit, earlier, key, from, until);
      if last.at < from {
        NothingBefore(limit, calls, key, from, until);
        m := 0;
      } else if last.key == key && key !in before {
        m := 0;
      } else if last.key == key && last.at - before[key].windowStart >= WINDOW_MS {
        NextWindow(limit, AcceptedIn(limit, earlier, key, from, until), before[key], from, m, last.at);
        m := if before[key].windowStart < from then 0 else m + 1;
      }
    }
  }

  /** In every run, any half-open interval of k windows holds at most (k + 1) * limit - 1 accepted
      calls for a key. */
  lemma {:induction false} AcceptedBound(limit: int, calls: seq<Call>, key: string, from: int, k: nat)
    requires Monotone(calls)
    ensures AcceptedIn(limit, calls, key, from, from + k * 60_000) <= (k + 1) * EffectiveLimit(limit) - 1
  {
    var until := from + k * WINDOW_MS;
    if calls != [] && calls[|calls| - 1].at >= until {
      AcceptedBound(limit, calls[..|calls| - 1], key, from, k);
    } else {
      var m := WindowsSoFar(limit, calls, key, from, until);
      var started := key in BucketsAfter(limit, calls) && from <= BucketsAfter(limit, calls)[key].windowStart;
      TallyInside(limit, AcceptedIn(limit, calls, key, from, until), if started then m else 0, k, started);
    }
  }

  lemma {:induction false} MoreWindows(m: nat, k: nat, full: nat)
    requires m <= k
    ensures m * full <= k * full
    decreases k - m
  {
    if m < k {
      MoreWindows(m + 1, k, full);
      assert (m + 1) * full == m * full + full;
    }
  }

  lemma TallyInside(limit: int, n: int, m: nat, k: nat, started: bool)
    requires if started then m < k && n <= EffectiveLimit(limit) - 1 + m * EffectiveLimit(limit) + EffectiveLimit(limit)
             else n <= EffectiveLimit(limit) - 1
    ensures n <= (k + 1) * EffectiveLimit(limit) - 1
  {
    var full := EffectiveLimit(limit);
    MoreWindows(if started then m + 1 else 0, k, full);
    assert (m + 1) * full == m * full + full && (k + 1) * full == k * full + full;
  }

  // ---- The bound is attained ---------------------------------------------------------------

  function Burst(key: string, at: int, n: nat): seq<Call>
    ensures |Burst(key, at, n)| == n
    ensures forall i :: 0 <= i < n ==> Burst(key, at, n)[i] == Call(key, at)
  {
    seq(n, i => Call(key, at))
  }

  /** One call, the rest of its window at the last moment, then k full windows. */
  function Worst(limit: int, key: string, k: nat): seq<Call> {
    var full: nat := EffectiveLimit(limit);
    if k == 0 then [Call(key, 0)] + Burst(key, WINDOW_MS - 1, full - 1)
    else Worst(limit, key, k - 1) + Burst(key, k * WINDOW_MS, full)
  }

  /** The bucket after n more calls at `at`, all of them accepted. */
  function Filled(bucket: Bucket, at: int, n: nat): Bucket {
    if n == 0 then bucket
    else if at - bucket.windowStart >= WINDOW_MS then Bucket(n, at)
    else bucket.(count := bucket.count + n)
  }

  lemma {:induction false} BurstFits(limit: int, calls: seq<Call>, key: string, at: int, n: nat, from: int, until: int)
    requires key in BucketsAfter(limit, calls) && from <= at < until
    requires n <= 1 || Filled(BucketsAfter(limit, calls)[key], at, n).count <= limit
    requires n == 1 ==> at - BucketsAfter(limit, calls)[key].windowStart >= WINDOW_MS || BucketsAfter(limit, calls)[key].count < limit
    ensures AcceptedIn(limit, calls + Burst(key, at, n), key, from, until) == AcceptedIn(limit, calls, key, from, until) + n
    ensures key in BucketsAfter(limit, calls + Burst(key, at, n))
    ensures BucketsAfter(limit, calls + Burst(key, at, n))[key] == Filled(BucketsAfter(limit, calls)[key], at, n)
  {
    var longer := calls + Burst(key, at, n);
    if n == 0 {
      assert longer == calls;
    } else {
      var shorter := calls + Burst(key, at, n - 1);
      BurstFits(limit, calls, key, at, n - 1, from, until);
      assert longer == shorter + [Call(key, at)];
    }
  }

  lemma {:induction false} WorstIsMonotone(limit: int, key: string, k: nat)
    ensures Monotone(Worst(limit, key, k))
    ensures forall i :: 0 <= i < |Worst(limit, key, k)| ==> Worst(limit, key, k)[i].at < (k + 1) * WINDOW_MS
  {
    if k > 0 {
      WorstIsMonotone(limit, key, k - 1);
    }
  }

  function WorstTotal(limit: int, k: nat): (total: int)
    ensures total == (k + 1) * EffectiveLimit(limit) - 1
  {
    if k == 0 then EffectiveLimit(limit) - 1 else WorstTotal(limit, k - 1) + EffectiveLimit(limit)
  }

  lemma {:induction false} WorstCase(limit: int, key: string, k: nat, until: int)
    requires k * WINDOW_MS < until && WINDOW_MS <= until
    ensures key in BucketsAfter(limit, Worst(limit, key, k)) && BucketsAfter(limit, Worst(limit, key, k))[key].windowStart == k * WINDOW_MS
    ensures AcceptedIn(limit, Worst(limit, key, k), key, 1, until) == WorstTotal(limit, k)
  {
    if k == 0 {
      WorstStart(limit, key, until);
    } else {
      WorstCase(limit, key, k - 1, until);
      FullWindow(limit, Worst(limit, key, k - 1), key, k * WINDOW_MS, until);
    }
  }

  lemma WorstStart(limit: int, key: string, until: int)
    requires WINDOW_MS <= until
    ensures key in BucketsAfter(limit, Worst(limit, key, 0)) && BucketsAfter(limit, Worst(limit, key, 0))[key].windowStart == 0
    ensures AcceptedIn(limit, Worst(limit, key, 0), key, 1, until) == EffectiveLimit(limit) - 1
  {
    BurstFits(limit, [Call(key, 0)], key, WINDOW_MS - 1, EffectiveLimit(limit) - 1, 1, until);
  }

  lemma FullWindow(limit: int, calls: seq<Call>, key: string, at: int, until: int)
    requires key in BucketsAfter(limit, calls) && BucketsAfter(limit, calls)[key].windowStart == at - WINDOW_MS
    requires 1 <= at < until
    ensures var longer := calls + Burst(key, at, EffectiveLimit(limit));
            && key in BucketsAfter(limit, longer) && BucketsAfter(limit, longer)[key].windowStart == at
            && AcceptedIn(limit, longer, key, 1, until) == AcceptedIn(limit, calls, key, 1, until) + EffectiveLimit(limit)
  {
    BurstFits(limit, calls, key, at, EffectiveLimit(limit), 1, until);
  }

  ghost predicate Reaches(limit: int, key: string, calls: seq<Call>, from: int, k: nat) {
    AcceptedIn(limit, calls, key, from, from + k * 60_000) == (k + 1) * EffectiveLimit(limit) - 1
  }

  /** No smaller bound holds: for every limit and every k of at least one window some run reaches it. */
  lemma BoundIsAttained(limit: int, key: string, k: nat)
    requires 1 <= k
    ensures exists calls, from :: Monotone(calls) && Reaches(limit, key, calls, from, k)
  {
    WorstIsMonotone(limit, key, k);
    WorstCase(limit, key, k, 1 + k * WINDOW_MS);
    assert Reaches(limit, key, Worst(limit, key, k), 1, k);
  }

  /** Calls for other keys never change a key's verdicts: deleting them leaves its count as it was. */
  function Only(calls: seq<Call>, key: string): seq<Call> {
    if calls == [] then [] else
      var last := calls[|calls| - 1];
      Only(calls[..|calls| - 1], key) + if last.key == key then [last] else []
  }

  lemma {:induction false} KeysAreIndependent(limit: int, calls: seq<Call>, key: string, from: int, until: int)
    ensures key in BucketsAfter(limit, calls) <==> key in BucketsAfter(limit, Only(calls, key))
    ensures key in BucketsAfter(limit, calls) ==> BucketsAfter(limit, calls)[key] == BucketsAfter(limit, Only(calls, key))[key]
    ensures AcceptedIn(limit, calls, key, from, until) == AcceptedIn(limit, Only(calls, key), key, from, until)
  {
    if calls != [] {
      var last, before := calls[|calls| - 1], calls[..|calls| - 1];
      KeysAreIndependent(limit, before, key, from, until);
      if last.key == key {
        var only := Only(calls, key);
        assert only[..|only| - 1] == Only(before, key);
      } else {
        assert Only(calls, key) == Only(before, key);
      }
    }
  }
}
