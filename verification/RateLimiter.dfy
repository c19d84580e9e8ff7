/** The request counter of packages/redis/client.ts: one Redis counter per identifier and time bucket. */
module RateLimiter {
  import opened Prelude

  /** A Redis counter and the time at which it disappears. */
  datatype Counter = Counter(count: nat, expiresAt: nat)

  datatype Verdict = Allowed(remaining: nat) | Denied(retryAfterSeconds: nat)

  datatype Call = Call(identifier: string, time: nat)

  type Counters = map<(string, nat), Counter>

  /** INCR, and PEXPIRE when that gives 1: the counter after a hit at the given time. */
  function Incremented(counters: Counters, key: (string, nat), time: nat, windowMs: nat): Counter {
    var live := key in counters && time < counters[key].expiresAt;
    var count := if live then counters[key].count + 1 else 1;
    Counter(count, if count == 1 then time + windowMs else counters[key].expiresAt)
  }

  function VerdictOn(c: Counter, time: nat, maxRequests: nat): Verdict {
    if c.count <= maxRequests then Allowed(maxRequests - c.count)
    else
      var seconds := if time < c.expiresAt then CeilDiv(c.expiresAt - time, 1000) else 0;
      Denied(if seconds > 0 then seconds else 1)
  }

  class Limiter {
    const windowMs: nat
    const maxRequests: nat
    var counters: Counters

    constructor (windowMs: nat, maxRequests: nat)
      requires windowMs > 0
      ensures this.windowMs == windowMs && this.maxRequests == maxRequests && counters == map[]
    {
      this.windowMs, this.maxRequests, counters := windowMs, maxRequests, map[];
    }

    method SlidingWindowRateLimit(identifier: string, time: nat) returns (verdict: Verdict)
      requires windowMs > 0
      modifies this
      ensures (counters, verdict) == Hit(old(counters), Call(identifier, time), windowMs, maxRequests)
    {
      var windowStart := time / windowMs;
      var key := (identifier, windowStart);
      if key in counters && counters[key].expiresAt <= time { counters := counters - {key}; }
      var count := if key in counters then counters[key].count + 1 else 1;
      counters := counters[key := Counter(count, if key in counters then counters[key].expiresAt else time)];
      if count == 1 { counters := counters[key := counters[key].(expiresAt := time + windowMs)]; }
      assert counters == old(counters)[key := counters[key]];
      if count > maxRequests {
        var ttl := counters[key].expiresAt - time;
        var retryAfterSeconds := CeilDiv(ttl, 1000);
        return Denied(if retryAfterSeconds > 0 then retryAfterSeconds else 1);
      }
      return Allowed(maxRequests - count);
    }
  }

  function Hit(counters: Counters, call: Call, windowMs: nat, maxRequests: nat): (Counters, Verdict)
    requires windowMs > 0
  {
    var key := (call.identifier, call.time / windowMs);
    var c := Incremented(counters, key, call.time, windowMs);
    (counters[key := c], VerdictOn(c, call.time, maxRequests))
  }

  /** The counters after a history of calls, starting from none. */
  function After(calls: seq<Call>, w: nat, max: nat): Counters
    requires w > 0
  {
    if calls == [] then map[] else Hit(After(calls[..|calls| - 1], w, max), calls[|calls| - 1], w, max).0
  }

  /** The answer to the i-th call. */
  function Answer(calls: seq<Call>, i: nat, w: nat, max: nat): Verdict
    requires w > 0 && i < |calls|
  {
    Hit(After(calls[..i], w, max), calls[i], w, max).1
  }

  predicate InOrder(calls: seq<Call>) {
    forall i, j :: 0 <= i < j < |calls| ==> calls[i].time <= calls[j].time
  }

  /** How many calls of one identifier fall into one bucket. */
  function CallsIn(calls: seq<Call>, id: string, bucket: nat, w: nat): nat
    requires w > 0
  {
    if calls == [] then 0
    else
      var last := calls[|calls| - 1];
      CallsIn(calls[..|calls| - 1], id, bucket, w) + if last.identifier == id && last.time / w == bucket then 1 else 0
  }

  /** How many calls of one identifier at a time in [from, to) were allowed. */
  function AllowedIn(calls: seq<Call>, id: string, from: nat, to: nat, w: nat, max: nat): nat
    requires w > 0
  {
    if calls == [] then 0
    else
      var n := |calls| - 1;
      AllowedIn(calls[..n], id, from, to, w, max)
      + if calls[n].identifier == id && from <= calls[n].time < to && Answer(calls, n, w, max).Allowed? then 1 else 0
  }

  lemma BucketBounds(time: nat, w: nat)
    requires w > 0
    ensures time / w * w <= time < (time / w + 1) * w
  {}

  /**
   The counter of a bucket counts exactly the bucket's calls, and its TTL outlives the bucket, so no call can
   ever come too late to find it.
   */
  lemma {:induction false} CountersCount(calls: seq<Call>, w: nat, max: nat, id: string, bucket: nat)
    requires w > 0 && InOrder(calls)
    ensures CallsIn(calls, id, bucket, w) > 0 <==> (id, bucket) in After(calls, w, max)
    ensures CallsIn(calls, id, bucket, w) > 0 ==>
      && After(calls, w, max)[(id, bucket)].count == CallsIn(calls, id, bucket, w)
      && (bucket + 1) * w <= After(calls, w, max)[(id, bucket)].expiresAt
  {
    if calls != [] {
      var n := |calls| - 1;
      CountersCount(calls[..n], w, max, id, bucket);
      BucketBounds(calls[n].time, w);
    }
  }

  /** A call is allowed exactly when fewer than max earlier calls fell into its bucket. */
  lemma AllowedIffFewEarlier(calls: seq<Call>, i: nat, w: nat, max: nat)
    requires w > 0 && InOrder(calls) && i < |calls|
    ensures Answer(calls, i, w, max).Allowed? <==>
      CallsIn(calls[..i], calls[i].identifier, calls[i].time / w, w) < max
  {
    CountersCount(calls[..i], w, max, calls[i].identifier, calls[i].time / w);
    BucketBounds(calls[i].time, w);
  }

  /** When the first of an identifier's calls in a bucket came. */
  function FirstIn(calls: seq<Call>, id: string, bucket: nat, w: nat): Option<nat>
    requires w > 0
  {
    if calls == [] then None
    else
      var n := |calls| - 1;
      var before := FirstIn(calls[..n], id, bucket, w);
      if before.None? && calls[n].identifier == id && calls[n].time / w == bucket then Some(calls[n].time) else before
  }

  /** A counter disappears one window after the first call of its bucket. */
  lemma {:induction false} CountersExpire(calls: seq<Call>, w: nat, max: nat, id: string, bucket: nat)
    requires w > 0 && InOrder(calls)
    ensures FirstIn(calls, id, bucket, w).Some? <==> (id, bucket) in After(calls, w, max)
    ensures (id, bucket) in After(calls, w, max) ==>
      After(calls, w, max)[(id, bucket)].expiresAt == FirstIn(calls, id, bucket, w).value + w
  {
    if calls != [] {
      var n := |calls| - 1;
      CountersExpire(calls[..n], w, max, id, bucket);
      CountersCount(calls[..n], w, max, id, bucket);
      BucketBounds(calls[n].time, w);
    }
  }

  /**
   The whole answer, on every history: while fewer than max calls came earlier in the bucket, how many more may
   follow; after that the least number of seconds, at least one, after which a full window has passed since the
   first call of the bucket.
   */
  lemma AnswerIsExact(calls: seq<Call>, i: nat, w: nat, max: nat)
    requires w > 0 && InOrder(calls) && i < |calls|
    ensures var (id, time), answer := (calls[i].identifier, calls[i].time), Answer(calls, i, w, max);
      var earlier, first := CallsIn(calls[..i], id, time / w, w), FirstIn(calls[..i + 1], id, time / w, w);
      && first.Some?
      && if earlier < max then answer == Allowed(max - 1 - earlier)
         else
           && answer.Denied? && answer.retryAfterSeconds >= 1
           && time + 1000 * answer.retryAfterSeconds >= first.value + w
           && forall s :: 1 <= s < answer.retryAfterSeconds ==> time + 1000 * s < first.value + w
  {
    var id, time := calls[i].identifier, calls[i].time;
    var upTo := calls[..i + 1];
    assert upTo[..i] == calls[..i] && upTo[i] == calls[i];
    CountersCount(calls[..i], w, max, id, time / w);
    CountersExpire(upTo, w, max, id, time / w);
    BucketBounds(time, w);
    if CallsIn(calls[..i], id, time / w, w) >= max { LeastWait(After(upTo, w, max)[(id, time / w)], time, max); }
  }

  lemma LeastWait(c: Counter, time: nat, max: nat)
    requires c.count > max
    ensures var answer := VerdictOn(c, time, max);
      && answer.Denied? && answer.retryAfterSeconds >= 1 && time + 1000 * answer.retryAfterSeconds >= c.expiresAt
      && forall s :: 1 <= s < answer.retryAfterSeconds ==> time + 1000 * s < c.expiresAt
  {}

  /** The counter behind an answer outlives its bucket. */
  lemma CounterBehind(calls: seq<Call>, i: nat, w: nat, max: nat) returns (c: Counter)
    requires w > 0 && InOrder(calls) && i < |calls|
    ensures Answer(calls, i, w, max) == VerdictOn(c, calls[i].time, max)
    ensures (calls[i].time / w + 1) * w <= c.expiresAt
  {
    var key := (calls[i].identifier, calls[i].time / w);
    CountersCount(calls[..i], w, max, key.0, key.1);
    BucketBounds(calls[i].time, w);
    c := Incremented(After(calls[..i], w, max), key, calls[i].time, w);
  }

  /** A client that waits as long as it is told comes back in a later bucket. */
  lemma RetryAfterIsLateEnough(calls: seq<Call>, i: nat, w: nat, max: nat)
    requires w > 0 && InOrder(calls) && i < |calls| && Answer(calls, i, w, max).Denied?
    ensures calls[i].time / w < (calls[i].time + 1000 * Answer(calls, i, w, max).retryAfterSeconds) / w
  {
    var c := CounterBehind(calls, i, w, max);
    WaitIsLongEnough(c, calls[i].time, calls[i].time / w, w, max);
  }

  lemma WaitIsLongEnough(c: Counter, time: nat, bucket: nat, w: nat, max: nat)
    requires w > 0 && (bucket + 1) * w <= c.expiresAt && VerdictOn(c, time, max).Denied?
    ensures bucket < (time + 1000 * VerdictOn(c, time, max).retryAfterSeconds) / w
  {
    var back := time + 1000 * VerdictOn(c, time, max).retryAfterSeconds;
    assert c.expiresAt <= back;
    LaterBucket(bucket, back, w);
  }

  lemma LaterBucket(bucket: nat, time: nat, w: nat)
    requires w > 0 && (bucket + 1) * w <= time
    ensures bucket < time / w
  {
    BucketBounds(time, w);
    if time / w <= bucket { MultiplyKeepsOrder(time / w + 1, bucket + 1, w); }
  }

  /** Per bucket, the first max calls are allowed and no others. */
  lemma {:induction false} BucketBound(calls: seq<Call>, id: string, bucket: nat, w: nat, max: nat)
    requires w > 0 && InOrder(calls)
    ensures var n := CallsIn(calls, id, bucket, w);
      AllowedIn(calls, id, bucket * w, (bucket + 1) * w, w, max) == if n < max then n else max
  {
    if calls != [] {
      var n := |calls| - 1;
      BucketBound(calls[..n], id, bucket, w, max);
      AllowedIffFewEarlier(calls, n, w, max);
      SameBucket(calls[n].time, bucket, w);
    }
  }

  lemma SameBucket(time: nat, bucket: nat, w: nat)
    requires w > 0
    ensures bucket * w <= time < (bucket + 1) * w <==> time / w == bucket
  {
    BucketBounds(time, w);
    if time / w < bucket { MultiplyKeepsOrder(time / w + 1, bucket, w); }
    if time / w > bucket { MultiplyKeepsOrder(bucket + 1, time / w, w); }
  }

  lemma {:induction false} AllowedSplits(calls: seq<Call>, id: string, a: nat, b: nat, c: nat, w: nat, max: nat)
    requires w > 0 && a <= b <= c
    ensures AllowedIn(calls, id, a, c, w, max) ==
      AllowedIn(calls, id, a, b, w, max) + AllowedIn(calls, id, b, c, w, max)
  {
    if calls != [] { AllowedSplits(calls[..|calls| - 1], id, a, b, c, w, max); }
  }

  /** In any interval of one window length at most twice the limit is allowed: it meets at most two buckets. */
  lemma WindowBound(calls: seq<Call>, id: string, t: nat, w: nat, max: nat)
    requires w > 0 && InOrder(calls)
    ensures AllowedIn(calls, id, t, t + w, w, max) <= 2 * max
  {
    var b := t / w;
    BucketBounds(t, w);
    assert (b + 2) * w == (b + 1) * w + w;
    BucketBound(calls, id, b, w, max);
    BucketBound(calls, id, b + 1, w, max);
    AllowedSplits(calls, id, b * w, t, (b + 1) * w, w, max);
    AllowedSplits(calls, id, t, (b + 1) * w, t + w, w, max);
    AllowedSplits(calls, id, (b + 1) * w, t + w, (b + 2) * w, w, max);
  }

  function Burst(identifier: string, time: nat, n: nat): seq<Call> { seq(n, _ => Call(identifier, time)) }

  lemma {:induction false} CallsInBurst(calls: seq<Call>, id: string, time: nat, n: nat, bucket: nat, w: nat)
    requires w > 0
    ensures CallsIn(calls + Burst(id, time, n), id, bucket, w) ==
      CallsIn(calls, id, bucket, w) + if time / w == bucket then n else 0
  {
    var all := calls + Burst(id, time, n);
    if n == 0 {
      assert all == calls;
    } else {
      assert all[..|all| - 1] == calls + Burst(id, time, n - 1);
      CallsInBurst(calls, id, time, n - 1, bucket, w);
    }
  }

  lemma {:induction false} NoneOutside(calls: seq<Call>, id: string, from: nat, to: nat, w: nat, max: nat)
    requires w > 0 && forall c :: c in calls ==> !(from <= c.time < to)
    ensures AllowedIn(calls, id, from, to, w, max) == 0
  {
    if calls != [] { NoneOutside(calls[..|calls| - 1], id, from, to, w, max); }
  }

  lemma CallsInTwoBursts(id: string, w: nat, max: nat, bucket: nat)
    requires w >= 2 && bucket < 2
    ensures CallsIn(Burst(id, w - 1, max) + Burst(id, w, max), id, bucket, w) == max
  {
    var first := Burst(id, w - 1, max);
    assert [] + first == first;
    SameBucket(w - 1, 0, w);
    SameBucket(w, 1, w);
    CallsInBurst([], id, w - 1, max, bucket, w);
    CallsInBurst(first, id, w, max, bucket, w);
  }

  lemma WindowAcrossBuckets(calls: seq<Call>, id: string, w: nat, max: nat)
    requires w >= 2 && InOrder(calls)
    requires forall c :: c in calls ==> c.time == w - 1 || c.time == w
    requires CallsIn(calls, id, 0, w) == CallsIn(calls, id, 1, w) == max
    ensures AllowedIn(calls, id, w - 1, w - 1 + w, w, max) == 2 * max
  {
    BucketBound(calls, id, 0, w, max);
    BucketBound(calls, id, 1, w, max);
    AllowedSplits(calls, id, 0, w - 1, w, w, max);
    AllowedSplits(calls, id, w - 1, w, w - 1 + w, w, max);
    AllowedSplits(calls, id, w, w - 1 + w, 2 * w, w, max);
    NoneOutside(calls, id, 0, w - 1, w, max);
    NoneOutside(calls, id, w - 1 + w, 2 * w, w, max);
  }

  /** A burst at the end of one bucket and a burst at the start of the next are all let through. */
  lemma TwoBursts(id: string, w: nat, max: nat)
    requires w >= 2
    ensures var calls := Burst(id, w - 1, max) + Burst(id, w, max);
      InOrder(calls) && AllowedIn(calls, id, w - 1, w - 1 + w, w, max) == 2 * max
  {
    CallsInTwoBursts(id, w, max, 0);
    CallsInTwoBursts(id, w, max, 1);
    WindowAcrossBuckets(Burst(id, w - 1, max) + Burst(id, w, max), id, w, max);
  }

  /** At most max calls are allowed in the window that starts at t. */
  ghost predicate WithinLimit(calls: seq<Call>, id: string, t: nat, w: nat, max: nat)
    requires w > 0
  {
    AllowedIn(calls, id, t, t + w, w, max) <= max
  }

  /**
   The function is documented as a sliding window, with at most max requests in any window. It is one exactly
   when the window is a single millisecond or nothing is allowed at all.
   */
  lemma SlidingOnlyIfTrivial(w: nat, max: nat)
    requires w > 0
    ensures (forall calls, id, t :: InOrder(calls) ==> WithinLimit(calls, id, t, w, max)) <==> w == 1 || max == 0
  {
    if w == 1 || max == 0 {
      forall calls, id, t | InOrder(calls) ensures WithinLimit(calls, id, t, w, max) {
        if w == 1 { BucketBound(calls, id, t, w, max); } else { WindowBound(calls, id, t, w, max); }
      }
    } else {
      TwoBursts("", w, max);
      assert !WithinLimit(Burst("", w - 1, max) + Burst("", w, max), "", w - 1, w, max);
    }
  }
}
