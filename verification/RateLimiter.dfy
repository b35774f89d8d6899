/** Token buckets keyed by sender. Token counts are reals; the clock is passed in. */
module RateLimiter {
  import opened Prelude

  datatype Bucket = Bucket(tokens: real, lastRefillMs: real)

  datatype Config = Config(capacity: real, refillPerSecond: real)

  /** Tokens refilled in a stretch of time. */
  function Refill(config: Config, ms: real): real {
    ms / 1000.0 * config.refillPerSecond
  }

  /** Tokens a key has at `now`; a key without a bucket has them all. */
  function Available(config: Config, bucket: Option<Bucket>, now: real): real {
    match bucket
    case None => config.capacity
    case Some(b) => Min(config.capacity, b.tokens + Refill(config, now - b.lastRefillMs))
  }

  /** The bucket after a take at `now`. */
  function Taken(config: Config, bucket: Option<Bucket>, now: real): Bucket {
    var tokens := Available(config, bucket, now);
    Bucket(if tokens >= 1.0 then tokens - 1.0 else tokens, now)
  }

  function Held(buckets: map<string, Bucket>, key: string): Option<Bucket> {
    if key in buckets then Some(buckets[key]) else None
  }

  class RateLimiter {
    const config: Config
    var buckets: map<string, Bucket>

    constructor (config: Config)
      ensures this.config == config && buckets == map[]
    {
      this.config := config;
      buckets := map[];
    }

    function BucketOf(key: string): Option<Bucket>
      reads this
    {
      Held(buckets, key)
    }

    /** Succeeds exactly if at least one token is available, and touches no other key. */
    method Take(key: string, now: real) returns (allowed: bool)
      modifies this
      ensures allowed <==> Available(config, old(BucketOf(key)), now) >= 1.0
      ensures buckets == old(buckets)[key := Taken(config, old(BucketOf(key)), now)]
    {
      var bucket := if key in buckets then buckets[key] else Bucket(config.capacity, now);
      var elapsed := (now - bucket.lastRefillMs) / 1000.0;
      var refill := elapsed * config.refillPerSecond;
      bucket := bucket.(tokens := Min(config.capacity, bucket.tokens + refill));
      bucket := bucket.(lastRefillMs := now);
      if bucket.tokens >= 1.0 {
        bucket := bucket.(tokens := bucket.tokens - 1.0);
        buckets := buckets[key := bucket];
        return true;
      }
      buckets := buckets[key := bucket];
      return false;
    }

    /** The same computation without consuming anything. */
    method Remaining(key: string, now: real) returns (tokens: real)
      ensures tokens == Available(config, BucketOf(key), now)
    {
      if key !in buckets {
        return config.capacity;
      }
      var elapsed := (now - buckets[key].lastRefillMs) / 1000.0;
      tokens := Min(config.capacity, buckets[key].tokens + elapsed * config.refillPerSecond);
    }

    method Reset(key: Option<string>)
      modifies this
      ensures key.None? ==> buckets == map[]
      ensures key.Some? ==> buckets == old(buckets) - {key.value}
    {
      if key.None? {
        buckets := map[];
      } else {
        buckets := buckets - {key.value};
      }
    }
  }

  // ----- Runs of takes on one key -----

  ghost predicate NonDecreasing(times: seq<real>) {
    forall i, j | 0 <= i < j < |times| :: times[i] <= times[j]
  }

  /** The bucket after takes at the given times. */
  function After(config: Config, bucket: Option<Bucket>, times: seq<real>): Option<Bucket> {
    if times == [] then bucket
    else Some(Taken(config, After(config, bucket, times[..|times| - 1]), times[|times| - 1]))
  }

  /** Whether take number `k` succeeds. */
  predicate Allowed(config: Config, bucket: Option<Bucket>, times: seq<real>, k: nat)
    requires k < |times|
  {
    Available(config, After(config, bucket, times[..k]), times[k]) >= 1.0
  }

  /** Successful takes among numbers `i` to `j` - 1. */
  function Count(config: Config, bucket: Option<Bucket>, times: seq<real>, i: nat, j: nat): nat
    requires i <= j <= |times|
  {
    if i == j then 0
    else Count(config, bucket, times, i, j - 1) + if Allowed(config, bucket, times, j - 1) then 1 else 0
  }

  /** A bucket that does not lie in the future and is not overdrawn. */
  ghost predicate Sound(bucket: Option<Bucket>, now: real) {
    bucket.Some? ==> bucket.value.tokens >= 0.0 && bucket.value.lastRefillMs <= now
  }

  lemma {:induction false} AfterStep(config: Config, bucket: Option<Bucket>, times: seq<real>, k: nat)
    requires k < |times|
    ensures After(config, bucket, times[..k + 1]) == Some(Taken(config, After(config, bucket, times[..k]), times[k]))
  {
    assert times[..k + 1][..k] == times[..k];
  }

  lemma MulNonNegative(a: real, b: real)
    requires a >= 0.0 && b >= 0.0
    ensures a * b >= 0.0
  {
  }

  lemma Spread(a: real, b: real, c: real)
    ensures (a + b) * c == a * c + b * c
  {
  }

  lemma RefillNonNegative(config: Config, ms: real)
    requires config.refillPerSecond >= 0.0 && ms >= 0.0
    ensures Refill(config, ms) >= 0.0
  {
    MulNonNegative(ms / 1000.0, config.refillPerSecond);
  }

  lemma RefillAdds(config: Config, a: real, b: real)
    requires config.refillPerSecond >= 0.0
    ensures Refill(config, a + b) == Refill(config, a) + Refill(config, b)
    ensures b >= 0.0 ==> Refill(config, b) >= 0.0
  {
    Spread(a / 1000.0, b / 1000.0, config.refillPerSecond);
    assert (a + b) / 1000.0 == a / 1000.0 + b / 1000.0;
    if b >= 0.0 {
      RefillNonNegative(config, b);
    }
  }

  /** A take never overdraws, and it leaves what was there plus the refill, less one if allowed. */
  lemma TakenSound(config: Config, bucket: Option<Bucket>, now: real)
    requires config.capacity >= 0.0 && config.refillPerSecond >= 0.0 && Sound(bucket, now)
    ensures var b := Taken(config, bucket, now);
            && b.tokens >= 0.0 && b.lastRefillMs == now
            && b.tokens + (if Available(config, bucket, now) >= 1.0 then 1.0 else 0.0)
               == Available(config, bucket, now) <= config.capacity
    ensures bucket.Some? ==>
              Available(config, bucket, now) <= bucket.value.tokens + Refill(config, now - bucket.value.lastRefillMs)
  {
    if bucket.Some? {
      RefillNonNegative(config, now - bucket.value.lastRefillMs);
    }
  }

  lemma {:induction false} StaysSound(config: Config, bucket: Option<Bucket>, times: seq<real>, k: nat)
    requires config.capacity >= 0.0 && config.refillPerSecond >= 0.0
    requires NonDecreasing(times) && k < |times| && Sound(bucket, times[0])
    ensures Sound(After(config, bucket, times[..k]), times[k])
  {
    if k > 0 {
      StaysSound(config, bucket, times, k - 1);
      AfterStep(config, bucket, times, k - 1);
      TakenSound(config, After(config, bucket, times[..k - 1]), times[k - 1]);
    }
  }

  /** Successes so far plus tokens left never exceed capacity plus refill. */
  lemma {:induction false} Balance(config: Config, bucket: Option<Bucket>, times: seq<real>, i: nat, j: nat)
    requires config.capacity >= 0.0 && config.refillPerSecond >= 0.0
    requires NonDecreasing(times) && i < j <= |times| && Sound(bucket, times[0])
    ensures var b := After(config, bucket, times[..j]);
            && b.Some? && b.value.lastRefillMs == times[j - 1] && b.value.tokens >= 0.0
            && Count(config, bucket, times, i, j) as real + b.value.tokens
               <= config.capacity + Refill(config, times[j - 1] - times[i])
  {
    var before := After(config, bucket, times[..j - 1]);
    StaysSound(config, bucket, times, j - 1);
    AfterStep(config, bucket, times, j - 1);
    TakenSound(config, before, times[j - 1]);
    if i < j - 1 {
      Balance(config, bucket, times, i, j - 1);
      RefillAdds(config, times[j - 2] - times[i], times[j - 1] - times[j - 2]);
      assert (times[j - 2] - times[i]) + (times[j - 1] - times[j - 2]) == times[j - 1] - times[i];
    } else {
      RefillAdds(config, 0.0, times[j - 1] - times[i]);
    }
  }

  /** Window bound: between any two takes, first and last included, at most capacity plus what is
      refilled meanwhile is allowed. */
  lemma {:induction false} WindowBound(config: Config, bucket: Option<Bucket>, times: seq<real>, i: nat, j: nat,
                                       t1: real, t2: real)
    requires config.capacity >= 0.0 && config.refillPerSecond >= 0.0
    requires NonDecreasing(times) && i < j <= |times| && Sound(bucket, times[0])
    requires t1 <= times[i] && times[j - 1] <= t2
    ensures Count(config, bucket, times, i, j) as real
            <= config.capacity + Refill(config, t2 - t1)
  {
    Balance(config, bucket, times, i, j);
    var inner := times[j - 1] - times[i];
    RefillAdds(config, inner, (t2 - t1) - inner);
    assert inner + ((t2 - t1) - inner) == t2 - t1;
  }

  /** A throttled take leaves the same tokens available at every later moment. */
  lemma ThrottledAvailable(config: Config, bucket: Option<Bucket>, now: real, later: real)
    requires config.refillPerSecond >= 0.0 && now <= later
    requires Available(config, bucket, now) < 1.0
    ensures Available(config, Some(Taken(config, bucket, now)), later) == Available(config, bucket, later)
  {
    RefillNonNegative(config, later - now);
    if bucket.Some? {
      RefillAdds(config, now - bucket.value.lastRefillMs, later - now);
      assert (now - bucket.value.lastRefillMs) + (later - now) == later - bucket.value.lastRefillMs;
    }
  }

  /** So it changes no later take, whatever the later times are. */
  lemma {:induction false} ThrottledIsNoOp(config: Config, bucket: Option<Bucket>, now: real, times: seq<real>, k: nat)
    requires config.refillPerSecond >= 0.0 && Available(config, bucket, now) < 1.0
    requires NonDecreasing(times) && k < |times| && now <= times[0]
    ensures Allowed(config, Some(Taken(config, bucket, now)), times, k) == Allowed(config, bucket, times, k)
    ensures k > 0 ==> After(config, Some(Taken(config, bucket, now)), times[..k]) == After(config, bucket, times[..k])
  {
    if k == 0 {
      assert times[..0] == [];
      ThrottledAvailable(config, bucket, now, times[0]);
    } else {
      ThrottledIsNoOp(config, bucket, now, times, k - 1);
      assert times[..k][..k - 1] == times[..k - 1];
      if k == 1 {
        assert times[..0] == [];
        ThrottledAvailable(config, bucket, now, times[0]);
      }
    }
  }

  // ----- Runs of takes on many keys -----

  datatype Request = Request(key: string, now: real)

  /** The times at which a key was asked for. */
  function TimesOf(requests: seq<Request>, key: string): seq<real> {
    if requests == [] then []
    else
      var last := requests[|requests| - 1];
      var times := TimesOf(requests[..|requests| - 1], key);
      if last.key == key then times + [last.now] else times
  }

  lemma {:induction false} TimesOfNext(requests: seq<Request>, k: nat, key: string)
    requires k < |requests|
    ensures TimesOf(requests[..k + 1], key) == if requests[k].key != key then TimesOf(requests[..k], key)
                                               else TimesOf(requests[..k], key) + [requests[k].now]
  {
    assert requests[..k + 1][..k] == requests[..k];
  }

  /** What request `k` is answered, if the limiter started with these buckets. */
  predicate Granted(config: Config, buckets: map<string, Bucket>, requests: seq<Request>, k: nat)
    requires k < |requests|
  {
    var Request(key, now) := requests[k];
    Available(config, After(config, Held(buckets, key), TimesOf(requests[..k], key)), now) >= 1.0
  }

  /** The bucket of a key is as if the other keys had never been asked for. */
  ghost predicate Separate(config: Config, before: map<string, Bucket>, after: map<string, Bucket>,
                           requests: seq<Request>, key: string)
  {
    Held(after, key) == After(config, Held(before, key), TimesOf(requests, key))
  }

  ghost predicate AllSeparate(config: Config, before: map<string, Bucket>, after: map<string, Bucket>,
                              requests: seq<Request>)
  {
    forall key {:trigger Separate(config, before, after, requests, key)} ::
      Separate(config, before, after, requests, key)
  }

  /** A limiter asked for any keys in any order treats each as if it were alone. */
  method Drive(limiter: RateLimiter, requests: seq<Request>) returns (answers: seq<bool>)
    modifies limiter
    ensures |answers| == |requests|
    ensures forall k | 0 <= k < |requests| ::
              answers[k] == Granted(limiter.config, old(limiter.buckets), requests, k)
    ensures AllSeparate(limiter.config, old(limiter.buckets), limiter.buckets, requests)
  {
    answers := [];
    ghost var before := limiter.buckets;
    for k := 0 to |requests|
      invariant |answers| == k
      invariant forall j | 0 <= j < k :: answers[j] == Granted(limiter.config, before, requests, j)
      invariant AllSeparate(limiter.config, before, limiter.buckets, requests[..k])
    {
      var Request(asked, now) := requests[k];
      ghost var reached := limiter.buckets;
      assert Separate(limiter.config, before, reached, requests[..k], asked);
      var answer := limiter.Take(asked, now);
      answers := answers + [answer];
      SeparateNext(limiter.config, before, reached, limiter.buckets, requests, k);
    }
    assert requests[..|requests|] == requests;
  }

  lemma {:induction false} SeparateNext(config: Config, before: map<string, Bucket>, reached: map<string, Bucket>,
                                        after: map<string, Bucket>, requests: seq<Request>, k: nat)
    requires k < |requests| && AllSeparate(config, before, reached, requests[..k])
    requires var Request(asked, now) := requests[k]; after == reached[asked := Taken(config, Held(reached, asked), now)]
    ensures AllSeparate(config, before, after, requests[..k + 1])
  {
    var asked := requests[..k + 1];
    forall key ensures Separate(config, before, after, asked, key) {
      assert Separate(config, before, reached, requests[..k], key);
      TimesOfNext(requests, k, key);
      AfterNext(config, Held(before, key), TimesOf(requests[..k], key), requests[k].now);
    }
  }

  lemma {:induction false} AfterNext(config: Config, bucket: Option<Bucket>, times: seq<real>, now: real)
    ensures After(config, bucket, times + [now]) == Some(Taken(config, After(config, bucket, times), now))
  {
    assert (times + [now])[..|times|] == times;
  }

  /** Granted requests for a key among numbers `a` to `b` - 1. */
  function Grants(config: Config, buckets: map<string, Bucket>, requests: seq<Request>, key: string, a: nat, b: nat)
    : nat
    requires a <= b <= |requests|
  {
    if a == b then 0
    else
      Grants(config, buckets, requests, key, a, b - 1)
      + if requests[b - 1].key == key && Granted(config, buckets, requests, b - 1) then 1 else 0
  }

  /** They are the successful takes of that key alone. */
  lemma {:induction false} GrantsAreCounted(config: Config, buckets: map<string, Bucket>, requests: seq<Request>,
                                            key: string, a: nat, b: nat)
    requires a <= b <= |requests|
    ensures var times := TimesOf(requests[..b], key);
            && |TimesOf(requests[..a], key)| <= |times|
            && Grants(config, buckets, requests, key, a, b)
               == Count(config, Held(buckets, key), times, |TimesOf(requests[..a], key)|, |times|)
  {
    if a < b {
      GrantsAreCounted(config, buckets, requests, key, a, b - 1);
      TimesOfNext(requests, b - 1, key);
      var i, times := |TimesOf(requests[..a], key)|, TimesOf(requests[..b - 1], key);
      if requests[b - 1].key == key {
        var longer := times + [requests[b - 1].now];
        CountOfPrefix(config, Held(buckets, key), times, longer, i, |times|);
        assert longer[..|times|] == times;
      }
    }
  }

  lemma {:induction false} CountOfPrefix(config: Config, bucket: Option<Bucket>, times: seq<real>, longer: seq<real>,
                                         i: nat, j: nat)
    requires i <= j <= |times| && times <= longer
    ensures Count(config, bucket, longer, i, j) == Count(config, bucket, times, i, j)
  {
    if i < j {
      CountOfPrefix(config, bucket, times, longer, i, j - 1);
      assert longer[..j - 1] == times[..j - 1];
    }
  }

  ghost predicate ClockRuns(requests: seq<Request>) {
    forall i, j | 0 <= i < j < |requests| :: requests[i].now <= requests[j].now
  }

  lemma {:induction false} TimesOfRun(requests: seq<Request>, b: nat, key: string)
    requires ClockRuns(requests) && b <= |requests|
    ensures var times := TimesOf(requests[..b], key);
            NonDecreasing(times) && forall i | 0 <= i < |times| :: b > 0 && times[i] <= requests[b - 1].now
  {
    if b > 0 {
      TimesOfRun(requests, b - 1, key);
      TimesOfNext(requests, b - 1, key);
    }
  }

  lemma {:induction false} TimesAfter(requests: seq<Request>, a: nat, b: nat, key: string, i: nat)
    requires ClockRuns(requests) && a < b <= |requests|
    requires |TimesOf(requests[..a], key)| <= i < |TimesOf(requests[..b], key)|
    ensures requests[a].now <= TimesOf(requests[..b], key)[i] <= requests[b - 1].now
  {
    TimesOfNext(requests, b - 1, key);
    assert a < b - 1 ==> requests[a].now <= requests[b - 1].now;
    if i < |TimesOf(requests[..b - 1], key)| {
      TimesAfter(requests, a, b - 1, key, i);
      assert requests[b - 2].now <= requests[b - 1].now;
    }
  }

  /** In any stretch of any run of a fresh limiter, a key is granted at most the capacity plus what is refilled
      between the first and the last request of the stretch. */
  lemma {:induction false} RunBound(config: Config, requests: seq<Request>, key: string, a: nat, b: nat)
    requires config.capacity >= 0.0 && config.refillPerSecond >= 0.0
    requires ClockRuns(requests) && a < b <= |requests|
    ensures Grants(config, map[], requests, key, a, b) as real
            <= config.capacity + Refill(config, requests[b - 1].now - requests[a].now)
  {
    var times, i := TimesOf(requests[..b], key), |TimesOf(requests[..a], key)|;
    GrantsAreCounted(config, map[], requests, key, a, b);
    TimesOfRun(requests, b, key);
    if i < |times| {
      TimesAfter(requests, a, b, key, i);
      TimesAfter(requests, a, b, key, |times| - 1);
      assert Held(map[], key) == None && Sound(None, times[0]);
      WindowBound(config, None, times, i, |times|, requests[a].now, requests[b - 1].now);
    } else {
      assert requests[b - 1].now - requests[a].now >= 0.0 by {
        assert a == b - 1 || requests[a].now <= requests[b - 1].now;
      }
      RefillNonNegative(config, requests[b - 1].now - requests[a].now);
    }
  }

  // ----- What a key is owed -----

  /** Tokens that a rate per second yields in some milliseconds. */
  function Yield(ratePerSecond: real, ms: real): real {
    ratePerSecond * ms / 1000.0
  }

  /** Refill is proportional to time and rate. */
  lemma {:induction false} RefillIsRate(config: Config, ms: real)
    ensures Refill(config, ms) == Yield(config.refillPerSecond, ms)
  {
    assert ms / 1000.0 == ms * 0.001;
    ThreeFactors(ms, 0.001, config.refillPerSecond);
  }

  lemma ThreeFactors(a: real, b: real, c: real)
    ensures a * b * c == c * a * b
  {
  }

  /** The window bound in plain terms. */
  lemma {:induction false} WindowBoundInRate(config: Config, bucket: Option<Bucket>, times: seq<real>, i: nat, j: nat,
                                             t1: real, t2: real)
    requires config.capacity >= 0.0 && config.refillPerSecond >= 0.0
    requires NonDecreasing(times) && i < j <= |times| && Sound(bucket, times[0])
    requires t1 <= times[i] && times[j - 1] <= t2
    ensures Count(config, bucket, times, i, j) as real
            <= config.capacity + Yield(config.refillPerSecond, t2 - t1)
  {
    WindowBound(config, bucket, times, i, j, t1, t2);
    RefillIsRate(config, t2 - t1);
  }

  /** A key that is left alone for as long as one token takes to refill is granted its next take, whatever
      happened to it before. */
  lemma {:induction false} PatienceIsGranted(config: Config, bucket: Option<Bucket>, times: seq<real>, k: nat)
    requires config.capacity >= 1.0 && config.refillPerSecond > 0.0
    requires NonDecreasing(times) && k < |times| && Sound(bucket, times[0])
    requires k > 0 ==> Yield(config.refillPerSecond, times[k] - times[k - 1]) >= 1.0
    requires k == 0 && bucket.Some? ==> Yield(config.refillPerSecond, times[0] - bucket.value.lastRefillMs) >= 1.0
    ensures Allowed(config, bucket, times, k)
  {
    StaysSound(config, bucket, times, k);
    if k > 0 {
      AfterStep(config, bucket, times, k - 1);
      RefillIsRate(config, times[k] - times[k - 1]);
    } else {
      assert times[..0] == [];
      if bucket.Some? {
        RefillIsRate(config, times[0] - bucket.value.lastRefillMs);
      }
    }
  }

  /** A new key is granted as many takes as the capacity holds, however fast they come. */
  lemma {:induction false} BurstIsGranted(config: Config, times: seq<real>, k: nat)
    requires config.refillPerSecond >= 0.0 && NonDecreasing(times)
    requires k < |times| && (k + 1) as real <= config.capacity
    ensures Allowed(config, None, times, k)
    ensures After(config, None, times[..k + 1]).value.tokens >= config.capacity - (k + 1) as real
    ensures After(config, None, times[..k + 1]).value.lastRefillMs == times[k]
  {
    AfterStep(config, None, times, k);
    if k > 0 {
      BurstIsGranted(config, times, k - 1);
      RefillNonNegative(config, times[k] - times[k - 1]);
    } else {
      assert times[..0] == [];
    }
  }
}
