/** The leaky bucket is a token bucket that gives one token back at a time. */
module BucketEquivalence {
  import opened Instants
  import opened Int64
  import opened Periods
  import opened Traces
  import Leaky = LeakyBucket
  import Token = TokenBucket
  import opened TokenSafety

  /** The token bucket that stands for a leaky one. */
  function AsToken(c: Leaky.Settings): Token.Settings {
    Token.Config(c.capacity, 1, c.leakEvery)
  }

  ghost predicate Agree(c: Leaky.Settings, trace: seq<Request>)
    requires trace != []
  {
    Answer(Leaky.Stepper(c), map[], trace) == Answer(Token.Stepper(AsToken(c)), map[], trace)
  }

  /** Clock readings that never make a drained bucket look as if it had never been seen. */
  ghost predicate Distinguishable(readings: iset<int>) {
    && ZERO_TIME !in readings
    && forall a, b :: a in readings && b in readings ==> !(a < 0 < b < -a)
  }

  /** The readings lie between two instants whose distance fits in a duration. */
  ghost predicate Bounded(readings: iset<int>, lo: int, hi: int) {
    && lo <= hi && hi - lo <= INT64_MAX
    && forall t :: t in readings ==> lo <= t <= hi
  }

  // ---------------------------------------------------------------- agreement

  ghost predicate Mirrors(c: Leaky.Settings, l: Leaky.Bucket, t: Token.Bucket, readings: iset<int>, hi: int) {
    && l.level <= c.capacity
    && t == Token.Bucket(c.capacity - l.level, l.seenAt)
    && l.seenAt != ZERO_TIME
    && (exists a :: a in readings && a <= l.seenAt)
    && l.seenAt <= hi
  }

  ghost predicate AllMirror(c: Leaky.Settings, ls: Leaky.Buckets, ts: Token.Buckets, readings: iset<int>, hi: int) {
    && ls.Keys == ts.Keys
    && forall key :: key in ls ==> Mirrors(c, ls[key], ts[key], readings, hi) && ls[key].level >= 1
  }

  lemma DrainIsRefill(c: Leaky.Settings, level: nat, leaked: nat)
    requires level <= c.capacity && c.capacity - level + leaked <= INT64_MAX
    ensures Token.Refilled(AsToken(c), c.capacity - level, leaked) == c.capacity - Leaky.Drained(level, leaked)
  {
    hide Wrap;
    assert Times(leaked, 1) == leaked;
    Token.RefillIsIdealIff(AsToken(c), c.capacity - level, leaked);
  }

  lemma AdvanceMirrors(c: Leaky.Settings, l: Leaky.Bucket, t: Token.Bucket, now: int, readings: iset<int>, lo: int, hi: int)
    requires Mirrors(c, l, t, readings, hi) && l.level >= 1 && Bounded(readings, lo, hi) && Distinguishable(readings)
    requires now in readings && Roomy(AsToken(c), lo, hi)
    ensures Mirrors(c, Leaky.Advance(c, l, now), Token.Advance(AsToken(c), t, now), readings, hi)
  {
    hide Times, Whole, Token.Refilled;
    var a :| a in readings && a <= l.seenAt;
    var elapsed := now - l.seenAt;
    assert Since(now, l.seenAt) == elapsed;
    if elapsed >= c.leakEvery {
      var k := Whole(elapsed, c.leakEvery);
      WholeNat(elapsed, c.leakEvery);
      WholeBounds(elapsed, c.leakEvery);
      WholeMonotone(elapsed, hi - lo, c.leakEvery);
      AtLeastOnePeriod(elapsed, c.leakEvery);
      OneAtATime(Whole(hi - lo, c.leakEvery));
      DrainIsRefill(c, l.level, k);
      assert a <= l.seenAt + Times(k, c.leakEvery) <= now;
    }
  }

  lemma OneAtATime(k: int)
    ensures Times(k, 1) == k
  {
  }

  lemma AtLeastOnePeriod(elapsed: int, every: int)
    requires elapsed >= every > 0
    ensures Times(Whole(elapsed, every), every) >= every
  {
    hide Times, Whole;
    TimesStep(0, every);
    WholeBelowIff(elapsed, every, 1);
    TimesMonotone(1, Whole(elapsed, every), every);
  }

  lemma StepMirrors(c: Leaky.Settings, ls: Leaky.Buckets, ts: Token.Buckets, r: Request, readings: iset<int>, lo: int, hi: int)
    requires AllMirror(c, ls, ts, readings, hi) && Bounded(readings, lo, hi) && Distinguishable(readings)
    requires r.now in readings && Roomy(AsToken(c), lo, hi)
    ensures AllMirror(c, Leaky.Step(c, ls, r).0, Token.Step(AsToken(c), ts, r).0, readings, hi)
    ensures Leaky.Step(c, ls, r).1 == Token.Step(AsToken(c), ts, r).1
  {
    hide Leaky.Advance, Token.Advance, Roomy;
    if r.key in ls {
      AdvanceMirrors(c, ls[r.key], ts[r.key], r.now, readings, lo, hi);
    }
  }

  lemma {:induction false} RunMirrors(c: Leaky.Settings, trace: seq<Request>, readings: iset<int>, lo: int, hi: int)
    requires Over(trace, readings) && Bounded(readings, lo, hi) && Distinguishable(readings) && Roomy(AsToken(c), lo, hi)
    ensures AllMirror(c, Run(Leaky.Stepper(c), map[], trace), Run(Token.Stepper(AsToken(c)), map[], trace), readings, hi)
    decreases |trace|
  {
    if trace != [] {
      var before := Front(trace);
      assert Over(before, readings);
      RunMirrors(c, before, readings, lo, hi);
      hide Leaky.Step, Token.Step, AllMirror, Roomy, Bounded, Distinguishable;
      StepMirrors(c, Run(Leaky.Stepper(c), map[], before), Run(Token.Stepper(AsToken(c)), map[], before),
                  Last(trace), readings, lo, hi);
    }
  }

  /** Same answers, whatever the clock does within such readings, and throughout the same
      instants and level = capacity - tokens for every key. */
  lemma LeakyIsToken(c: Leaky.Settings, trace: seq<Request>, readings: iset<int>, lo: int, hi: int)
    requires trace != [] && Over(trace, readings) && Bounded(readings, lo, hi) && Distinguishable(readings)
    requires Roomy(AsToken(c), lo, hi)
    ensures Agree(c, trace)
    ensures AllMirror(c, Run(Leaky.Stepper(c), map[], trace), Run(Token.Stepper(AsToken(c)), map[], trace), readings, hi)
  {
    RunMirrors(c, trace, readings, lo, hi);
    var before := Front(trace);
    assert Over(before, readings);
    RunMirrors(c, before, readings, lo, hi);
    hide Leaky.Step, Token.Step, AllMirror, Roomy, Bounded, Distinguishable;
    StepMirrors(c, Run(Leaky.Stepper(c), map[], before), Run(Token.Stepper(AsToken(c)), map[], before),
                Last(trace), readings, lo, hi);
  }

  // ------------------------------------------------------------- disagreement

  /** At the zero time a leaky bucket starts anew with every request. */
  lemma ZeroTimeDiffers(key: string)
    ensures !Agree(Leaky.Config(1, 1), [Request(key, 0), Request(key, 0)])
  {
    var c: Leaky.Settings := Leaky.Config(1, 1);
    var trace := [Request(key, 0), Request(key, 0)];
    var front := [Request(key, 0)];
    assert Front(trace) == front && Front(front) == [];
    assert Run(Leaky.Stepper(c), map[], front) == map[key := Leaky.Bucket(1, 0)];
    assert Run(Token.Stepper(AsToken(c)), map[], front) == map[key := Token.Bucket(0, 0)];
  }

  /** A bucket drained up to the zero time starts anew as well. */
  lemma CrossingDiffers(key: string, a: int, b: int)
    requires a < 0 < b < -a && b - a <= INT64_MAX
    ensures !Agree(Leaky.Config(1, -a), [Request(key, a), Request(key, b), Request(key, b)])
  {
    var c: Leaky.Settings := Leaky.Config(1, -a);
    var trace := [Request(key, a), Request(key, b), Request(key, b)];
    var two := [Request(key, a), Request(key, b)];
    var one := [Request(key, a)];
    assert Front(trace) == two && Front(two) == one && Front(one) == [];
    OnePeriod(a, b);
    assert Run(Leaky.Stepper(c), map[], one) == map[key := Leaky.Bucket(1, a)];
    assert Leaky.Advance(c, Leaky.Bucket(1, a), b) == Leaky.Bucket(0, 0);
    assert Run(Leaky.Stepper(c), map[], two) == map[key := Leaky.Bucket(1, 0)];
    assert Run(Token.Stepper(AsToken(c)), map[], one) == map[key := Token.Bucket(0, a)];
    DrainIsRefill(c, 1, 1);
    assert Token.Advance(AsToken(c), Token.Bucket(0, a), b) == Token.Bucket(1, 0);
    assert Run(Token.Stepper(AsToken(c)), map[], two) == map[key := Token.Bucket(0, 0)];
  }

  lemma OnePeriod(a: int, b: int)
    requires a < 0 < b < -a
    ensures Whole(b - a, -a) == 1 && Times(1, -a) == -a
  {
    hide Times, Whole;
    TimesStep(0, -a);
    TimesStep(1, -a);
    WholeBelowIff(b - a, -a, 1);
    WholeBelowIff(b - a, -a, 2);
  }

  /** The two limiters give the same answers on every trace over a set of readings, whatever
      their settings, exactly when the readings avoid the zero time and no two of them straddle
      it with the later one nearer. */
  lemma LeakyIsTokenIff(readings: iset<int>, lo: int, hi: int)
    requires Bounded(readings, lo, hi)
    ensures (forall c: Leaky.Settings, trace: seq<Request> ::
               trace != [] && Over(trace, readings) && Roomy(AsToken(c), lo, hi) ==> Agree(c, trace))
            <==> Distinguishable(readings)
  {
    if Distinguishable(readings) {
      forall c: Leaky.Settings, trace: seq<Request> |
        trace != [] && Over(trace, readings) && Roomy(AsToken(c), lo, hi)
        ensures Agree(c, trace)
      {
        LeakyIsToken(c, trace, readings, lo, hi);
      }
    } else if ZERO_TIME in readings {
      var c: Leaky.Settings := Leaky.Config(1, 1);
      var trace := [Request("", 0), Request("", 0)];
      RoomForOne(c, lo, hi);
      ZeroTimeDiffers("");
      assert Over(trace, readings) && !Agree(c, trace);
    } else {
      var a, b :| a in readings && b in readings && a < 0 < b < -a;
      var c: Leaky.Settings := Leaky.Config(1, -a);
      var trace := [Request("", a), Request("", b), Request("", b)];
      RoomForOne(c, lo, hi);
      CrossingDiffers("", a, b);
      assert Over(trace, readings) && !Agree(c, trace);
    }
  }

  /** Without room the leaky bucket accepts where the token bucket refuses: only the second
      overflows. */
  lemma NoRoomDiffers(c: Leaky.Settings, lo: int, hi: int) returns (trace: seq<Request>)
    requires lo <= hi && hi - lo <= INT64_MAX && lo > 0 && !Roomy(AsToken(c), lo, hi)
    ensures trace != [] && Within(trace, lo, hi) && !Agree(c, trace)
  {
    hide Times, Whole, Answer;
    var d := AsToken(c);
    WholeNat(hi - lo, c.leakEvery);
    var k := LeastOverflow(d, Whole(hi - lo, c.leakEvery));
    WholeBounds(hi - lo, c.leakEvery);
    TimesMonotone(k, Whole(hi - lo, c.leakEvery), c.leakEvery);
    TimesNat(k, c.leakEvery);
    trace := [Request("", lo), Request("", lo + Times(k, c.leakEvery))];
    OverflowStarves(d, "", lo, k);
    LeakyAccepts(c, "", lo, k);
  }

  lemma LeakyAccepts(c: Leaky.Settings, key: string, t: int, k: nat)
    requires k >= 1 && t != ZERO_TIME && Times(k, c.leakEvery) <= INT64_MAX
    ensures Answer(Leaky.Stepper(c), map[], [Request(key, t), Request(key, t + Times(k, c.leakEvery))])
  {
    var now := t + Times(k, c.leakEvery);
    var front, trace := [Request(key, t)], [Request(key, t), Request(key, now)];
    assert Front(trace) == front && Front(front) == [];
    assert Run(Leaky.Stepper(c), map[], front) == map[key := Leaky.Bucket(1, t)];
    hide Run, Times, Whole;
    Aligned(k, c.leakEvery);
    TimesStep(0, c.leakEvery);
    TimesMonotone(1, k, c.leakEvery);
    assert Leaky.Advance(c, Leaky.Bucket(1, t), now).level == 0;
  }

  /** On readings after the zero time, a leaky bucket gives the answers of its token bucket on
      every trace over a span exactly when that token bucket has room. */
  lemma LeakyIsTokenForIff(c: Leaky.Settings, lo: int, hi: int)
    requires 0 < lo <= hi && hi - lo <= INT64_MAX
    ensures (forall trace: seq<Request> :: trace != [] && Within(trace, lo, hi) ==> Agree(c, trace)) <==>
            c.capacity - 1 + Whole(hi - lo, c.leakEvery) <= INT64_MAX
  {
    OneAtATime(Whole(hi - lo, c.leakEvery));
    hide Within, Agree, Times, Whole;
    if Roomy(AsToken(c), lo, hi) {
      forall trace: seq<Request> | trace != [] && Within(trace, lo, hi)
        ensures Agree(c, trace)
      {
        PositiveAgrees(c, trace, lo, hi);
      }
    } else {
      var trace := NoRoomDiffers(c, lo, hi);
    }
  }

  lemma PositiveAgrees(c: Leaky.Settings, trace: seq<Request>, lo: int, hi: int)
    requires 0 < lo <= hi && trace != [] && Within(trace, lo, hi) && Roomy(AsToken(c), lo, hi)
    ensures Agree(c, trace)
  {
    hide Answer, Roomy;
    LeakyIsToken(c, trace, (iset i | 0 <= i < |trace| :: trace[i].now), lo, hi);
  }

  lemma RoomForOne(c: Leaky.Settings, lo: int, hi: int)
    requires c.capacity == 1 && lo <= hi && hi - lo <= INT64_MAX
    ensures Roomy(AsToken(c), lo, hi)
  {
    hide Times, Whole;
    WholeNat(hi - lo, c.leakEvery);
    OneAtATime(Whole(hi - lo, c.leakEvery));
  }
}
