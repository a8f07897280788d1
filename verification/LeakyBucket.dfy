/** The leaky bucket: requests fill it, whole periods drain it. */
module LeakyBucket {
  import opened Instants
  import opened Int64
  import opened Periods
  import opened Traces

  datatype Config = Config(capacity: int64, leakEvery: int64)

  /** The level never exceeds the capacity, and so stays within 64 bits. */
  datatype Bucket = Bucket(level: nat, seenAt: int)

  type Buckets = map<string, Bucket>

  predicate Positive(c: Config) {
    c.capacity > 0 && c.leakEvery > 0
  }

  function WithDefaults(c: Config): (r: Config)
    ensures Positive(r)
    ensures if c.capacity > 0 then r.capacity == c.capacity else r.capacity == 60
    ensures if c.leakEvery > 0 then r.leakEvery == c.leakEvery else r.leakEvery == SECOND
  {
    Config(
      if c.capacity <= 0 then 60 else c.capacity,
      if c.leakEvery <= 0 then SECOND else c.leakEvery)
  }

  type Settings = c: Config | Positive(c) witness Config(1, 1)

  function Drained(level: nat, leaked: int): nat {
    if level - leaked < 0 then 0 else level - leaked
  }

  function Advance(c: Settings, b: Bucket, now: int): Bucket {
    var elapsed := Since(now, b.seenAt);
    if elapsed >= c.leakEvery then
      var leaked := Whole(elapsed, c.leakEvery);
      Bucket(Drained(b.level, leaked), b.seenAt + Times(leaked, c.leakEvery))
    else b
  }

  function Fill(c: Settings, b: Bucket): (Bucket, bool) {
    if b.level >= c.capacity then (b, false) else (b.(level := b.level + 1), true)
  }

  /** A missing bucket reads as one last seen at the zero time, and either starts anew. */
  function Step(c: Settings, buckets: Buckets, r: Request): (Buckets, bool) {
    if r.key !in buckets || buckets[r.key].seenAt == ZERO_TIME then (buckets[r.key := Bucket(1, r.now)], true)
    else
      var (b, ok) := Fill(c, Advance(c, buckets[r.key], r.now));
      (buckets[r.key := b], ok)
  }

  function Stepper(c: Settings): (Buckets, Request) -> (Buckets, bool) {
    (buckets, r) => Step(c, buckets, r)
  }

  class Limiter {
    var config: Settings
    var buckets: Buckets

    constructor (c: Config)
      ensures config == WithDefaults(c) && buckets == map[]
    {
      config := WithDefaults(c);
      buckets := map[];
    }

    method Allow(key: string, now: int) returns (ok: bool)
      modifies this`buckets
      ensures (buckets, ok) == Step(config, old(buckets), Request(key, now))
    {
      var bucket := if key in buckets then buckets[key] else Bucket(0, ZERO_TIME);
      if bucket.seenAt == ZERO_TIME {
        buckets := buckets[key := Bucket(1, now)];
        return true;
      }
      var elapsed := Since(now, bucket.seenAt);
      if elapsed >= config.leakEvery {
        var leaked := elapsed / config.leakEvery;
        var level := bucket.level - leaked;
        if level < 0 {
          level := 0;
        }
        bucket := Bucket(level, bucket.seenAt + leaked * config.leakEvery);
      }
      if bucket.level >= config.capacity {
        buckets := buckets[key := bucket];
        return false;
      }
      bucket := bucket.(level := bucket.level + 1);
      buckets := buckets[key := bucket];
      return true;
    }
  }
}
