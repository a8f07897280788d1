/** The token bucket: tokens come back in whole periods, worked out only when asked. */
module TokenBucket {
  import opened Instants
  import opened Int64
  import opened Periods
  import opened Traces

  datatype Config = Config(capacity: int64, refillTokens: int64, refillEvery: int64)

  datatype Bucket = Bucket(tokens: int64, seenAt: int)

  type Buckets = map<string, Bucket>

  predicate Positive(c: Config) {
    c.capacity > 0 && c.refillTokens > 0 && c.refillEvery > 0
  }

  function WithDefaults(c: Config): (r: Config)
    ensures Positive(r)
    ensures if c.capacity > 0 then r.capacity == c.capacity else r.capacity == 60
    ensures if c.refillTokens > 0 then r.refillTokens == c.refillTokens else r.refillTokens == r.capacity
    ensures if c.refillEvery > 0 then r.refillEvery == c.refillEvery else r.refillEvery == MINUTE
  {
    var capacity := if c.capacity <= 0 then 60 else c.capacity;
    Config(
      capacity,
      if c.refillTokens <= 0 then capacity else c.refillTokens,
      if c.refillEvery <= 0 then MINUTE else c.refillEvery)
  }

  type Settings = c: Config | Positive(c) witness Config(1, 1, 1)

  /** Adds whole periods in 64-bit arithmetic, then caps. */
  function Refilled(c: Settings, tokens: int64, periods: int): int64 {
    var t := Wrap(tokens + Wrap(Times(periods, c.refillTokens)));
    if t > c.capacity then c.capacity else t
  }

  function Advance(c: Settings, b: Bucket, now: int): Bucket {
    var elapsed := Since(now, b.seenAt);
    if elapsed >= c.refillEvery then
      var periods := Whole(elapsed, c.refillEvery);
      Bucket(Refilled(c, b.tokens, periods), b.seenAt + Times(periods, c.refillEvery))
    else b
  }

  function Take(b: Bucket): (Bucket, bool) {
    if b.tokens <= 0 then (b, false) else (b.(tokens := b.tokens - 1), true)
  }

  function Created(c: Settings, now: int): Bucket {
    Bucket(c.capacity - 1, now)
  }

  function Step(c: Settings, buckets: Buckets, r: Request): (Buckets, bool) {
    if r.key !in buckets then (buckets[r.key := Created(c, r.now)], true)
    else
      var (b, ok) := Take(Advance(c, buckets[r.key], r.now));
      (buckets[r.key := b], ok)
  }

  function Stepper(c: Settings): (Buckets, Request) -> (Buckets, bool) {
    (buckets, r) => Step(c, buckets, r)
  }

  class Limiter {
    var config: Settings
    var buckets: Buckets

    constructor (c: Config)
      ensures config == WithDefaults(c) && buckets == map[]
    {
      config := WithDefaults(c);
      buckets := map[];
    }

    method Allow(key: string, now: int) returns (ok: bool)
      modifies this`buckets
      ensures (buckets, ok) == Step(config, old(buckets), Request(key, now))
    {
      if key !in buckets {
        buckets := buckets[key := Bucket(config.capacity - 1, now)];
        return true;
      }
      var b := buckets[key];
      var elapsed := Since(now, b.seenAt);
      if elapsed >= config.refillEvery {
        var periods := elapsed / config.refillEvery;
        b := b.(tokens := Wrap(b.tokens + Wrap(periods * config.refillTokens)));
        if b.tokens > config.capacity {
          b := b.(tokens := config.capacity);
        }
        b := b.(seenAt := b.seenAt + periods * config.refillEvery);
      }
      if b.tokens <= 0 {
        buckets := buckets[key := b];
        return false;
      }
      b := b.(tokens := b.tokens - 1);
      buckets := buckets[key := b];
      return true;
    }
  }

  // ------------------------------------------------------------ 64-bit refills

  /** What the refill is meant to be. */
  function Ideal(c: Settings, tokens: int, periods: int): int {
    Min(tokens + Times(periods, c.refillTokens), c.capacity)
  }

  lemma RefilledAtOnce(c: Settings, tokens: int64, periods: int)
    ensures Refilled(c, tokens, periods) == Min(Wrap(tokens + Times(periods, c.refillTokens)), c.capacity)
  {
    hide Times, Wrap;
    WrapAbsorbs(Times(periods, c.refillTokens), tokens);
  }

  lemma CappedIff(sum: int, capacity: int64)
    requires sum >= -INT64_MAX - 1 && capacity > 0
    ensures Min(Wrap(sum), capacity) == Min(sum, capacity) <==>
            sum <= INT64_MAX || capacity <= sum % INT64_SPAN <= INT64_MAX
    ensures Min(Wrap(sum), capacity) <= Min(sum, capacity)
  {
  }

  /** The refill is right exactly when the sum does not overflow, or its low 64 bits are again
      a number at or above the capacity. */
  lemma RefillIsIdealIff(c: Settings, tokens: int64, periods: nat)
    ensures Refilled(c, tokens, periods) == Ideal(c, tokens, periods) <==>
            var sum := tokens + Times(periods, c.refillTokens);
            sum <= INT64_MAX || c.capacity <= sum % INT64_SPAN <= INT64_MAX
  {
    hide Times, Wrap, Refilled;
    RefilledAtOnce(c, tokens, periods);
    TimesNat(periods, c.refillTokens);
    CappedIff(tokens + Times(periods, c.refillTokens), c.capacity);
  }

  /** An overflow never grants more than was meant. */
  lemma RefillIsNotMore(c: Settings, tokens: int64, periods: nat)
    ensures Refilled(c, tokens, periods) <= Ideal(c, tokens, periods)
  {
    hide Times, Wrap, Refilled;
    RefilledAtOnce(c, tokens, periods);
    TimesNat(periods, c.refillTokens);
    CappedIff(tokens + Times(periods, c.refillTokens), c.capacity);
  }
}
