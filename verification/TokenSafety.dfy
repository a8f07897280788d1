/** What the token bucket amounts to: a bucket that is topped up tick by tick, and a bound on
    what any stretch of time can let through. */
module TokenSafety {
  import opened Wrappers
  import opened Int64
  import opened Periods
  import opened Traces
  import opened TokenBucket

  // ------------------------------------------------------------ the eager bucket

  /** Holds the instant of its next tick. */
  datatype Eager = Eager(tokens: int, nextTick: int)

  /** Every tick up to now, one at a time. */
  function Ticked(c: Settings, e: Eager, now: int): Eager
    decreases if e.nextTick <= now then now - e.nextTick + 1 else 0
  {
    if e.nextTick > now then e
    else Ticked(c, Eager(Min(e.tokens + c.refillTokens, c.capacity), e.nextTick + c.refillEvery), now)
  }

  function EagerStep(c: Settings, buckets: map<string, Eager>, r: Request): (map<string, Eager>, bool) {
    if r.key !in buckets then (buckets[r.key := Eager(c.capacity - 1, r.now + c.refillEvery)], true)
    else
      var e := Ticked(c, buckets[r.key], r.now);
      if e.tokens <= 0 then (buckets[r.key := e], false)
      else (buckets[r.key := e.(tokens := e.tokens - 1)], true)
  }

  function EagerStepper(c: Settings): (map<string, Eager>, Request) -> (map<string, Eager>, bool) {
    (buckets, r) => EagerStep(c, buckets, r)
  }

  /** No refill within these instants can overflow: a bucket that was asked once holds at most
      one token less than its capacity. */
  ghost predicate Roomy(c: Settings, lo: int, hi: int) {
    lo <= hi && c.capacity - 1 + Times(Whole(hi - lo, c.refillEvery), c.refillTokens) <= INT64_MAX
  }

  ghost predicate Matches(c: Settings, b: Bucket, e: Eager, lo: int, hi: int) {
    && e == Eager(b.tokens, b.seenAt + c.refillEvery)
    && 0 <= b.tokens <= c.capacity
    && lo <= b.seenAt <= hi
  }

  ghost predicate AllMatch(c: Settings, lazy: Buckets, eager: map<string, Eager>, lo: int, hi: int) {
    && lazy.Keys == eager.Keys
    && forall key :: key in lazy ==> Matches(c, lazy[key], eager[key], lo, hi) && lazy[key].tokens < c.capacity
  }

  /** Many ticks at once. */
  lemma {:induction false} TickedIs(c: Settings, e: Eager, now: int, k: nat)
    requires e.tokens <= c.capacity
    requires now < e.nextTick + Times(k, c.refillEvery) <= now + c.refillEvery || (k == 0 && now < e.nextTick)
    ensures Ticked(c, e, now) == Eager(Ideal(c, e.tokens, k), e.nextTick + Times(k, c.refillEvery))
    decreases k
  {
    hide Times;
    if k == 0 {
      TimesStep(0, c.refillTokens);
      TimesStep(0, c.refillEvery);
    } else {
      TimesStep(k - 1, c.refillTokens);
      TimesStep(k - 1, c.refillEvery);
      TimesNat(k - 1, c.refillEvery);
      TimesNat(k - 1, c.refillTokens);
      TickedIs(c, Eager(Min(e.tokens + c.refillTokens, c.capacity), e.nextTick + c.refillEvery), now, k - 1);
    }
  }

  lemma RefillFits(c: Settings, tokens: int64, elapsed: int, lo: int, hi: int)
    requires Roomy(c, lo, hi) && 0 <= elapsed <= hi - lo && 0 <= tokens < c.capacity
    ensures Whole(elapsed, c.refillEvery) >= 0
    ensures Refilled(c, tokens, Whole(elapsed, c.refillEvery)) == Ideal(c, tokens, Whole(elapsed, c.refillEvery))
  {
    hide Refilled, Ideal, Wrap, Times, Whole;
    WholeMonotone(elapsed, hi - lo, c.refillEvery);
    WholeNat(elapsed, c.refillEvery);
    TimesMonotone(Whole(elapsed, c.refillEvery), Whole(hi - lo, c.refillEvery), c.refillTokens);
    RefillIsIdealIff(c, tokens, Whole(elapsed, c.refillEvery));
  }

  lemma AdvanceMatches(c: Settings, b: Bucket, e: Eager, now: int, lo: int, hi: int)
    requires Matches(c, b, e, lo, hi) && b.tokens < c.capacity
    requires Roomy(c, lo, hi) && hi - lo <= INT64_MAX && lo <= now <= hi
    ensures Matches(c, Advance(c, b, now), Ticked(c, e, now), lo, hi)
  {
    hide Ticked, Refilled, Roomy, Times, Whole;
    var elapsed := now - b.seenAt;
    assert Since(now, b.seenAt) == elapsed;
    if elapsed >= c.refillEvery {
      var k := Whole(elapsed, c.refillEvery);
      RefillFits(c, b.tokens, elapsed, lo, hi);
      WholeBounds(elapsed, c.refillEvery);
      TimesNat(k, c.refillTokens);
      TimesNat(k, c.refillEvery);
      TickedIs(c, e, now, k);
    } else {
      TickedIs(c, e, now, 0);
      TimesStep(0, c.refillTokens);
      TimesStep(0, c.refillEvery);
    }
  }

  lemma StepMatches(c: Settings, lazy: Buckets, eager: map<string, Eager>, r: Request, lo: int, hi: int)
    requires AllMatch(c, lazy, eager, lo, hi) && Roomy(c, lo, hi) && hi - lo <= INT64_MAX && lo <= r.now <= hi
    ensures AllMatch(c, Step(c, lazy, r).0, EagerStep(c, eager, r).0, lo, hi)
    ensures Step(c, lazy, r).1 == EagerStep(c, eager, r).1
  {
    hide Advance, Ticked, Roomy;
    if r.key in lazy {
      AdvanceMatches(c, lazy[r.key], eager[r.key], r.now, lo, hi);
    }
  }

  lemma {:induction false} RunMatches(c: Settings, trace: seq<Request>, lo: int, hi: int)
    requires Within(trace, lo, hi) && Roomy(c, lo, hi)
    ensures AllMatch(c, Run(Stepper(c), map[], trace), Run(EagerStepper(c), map[], trace), lo, hi)
    decreases |trace|
  {
    if trace != [] {
      FrontKeeps(trace, lo, hi);
      RunMatches(c, Front(trace), lo, hi);
      hide Step, EagerStep, AllMatch, Roomy;
      StepMatches(c, Run(Stepper(c), map[], Front(trace)), Run(EagerStepper(c), map[], Front(trace)), Last(trace), lo, hi);
    }
  }

  /** The lazy bucket gives the answers of the eager one, whatever the clock does. */
  lemma LazyRefinesEager(c: Settings, trace: seq<Request>, lo: int, hi: int)
    requires trace != [] && Within(trace, lo, hi) && Roomy(c, lo, hi)
    ensures Answer(Stepper(c), map[], trace) == Answer(EagerStepper(c), map[], trace)
  {
    FrontKeeps(trace, lo, hi);
    RunMatches(c, Front(trace), lo, hi);
    hide Step, EagerStep, AllMatch, Roomy;
    StepMatches(c, Run(Stepper(c), map[], Front(trace)), Run(EagerStepper(c), map[], Front(trace)), Last(trace), lo, hi);
  }

  /** The first number of periods that overflows a bucket asked once. */
  lemma {:induction false} LeastOverflow(c: Settings, n: nat) returns (k: nat)
    requires c.capacity - 1 + Times(n, c.refillTokens) > INT64_MAX
    ensures 1 <= k <= n
    ensures c.capacity - 1 + Times(k - 1, c.refillTokens) <= INT64_MAX < c.capacity - 1 + Times(k, c.refillTokens)
  {
    hide Times;
    TimesStep(0, c.refillTokens);
    if c.capacity - 1 + Times(n - 1, c.refillTokens) <= INT64_MAX {
      k := n;
    } else {
      k := LeastOverflow(c, n - 1);
    }
  }

  lemma JustOverflows(c: Settings, k: nat)
    requires k >= 1
    requires c.capacity - 1 + Times(k - 1, c.refillTokens) <= INT64_MAX < c.capacity - 1 + Times(k, c.refillTokens)
    ensures Refilled(c, c.capacity - 1, k) < 0 && Ideal(c, c.capacity - 1, k) == c.capacity
  {
    TimesStep(k - 1, c.refillTokens);
    hide Times;
    RefilledAtOnce(c, c.capacity - 1, k);
    var sum := c.capacity - 1 + Times(k, c.refillTokens);
    assert Wrap(sum) == sum - INT64_SPAN;
  }

  /** Two requests, that many periods apart: the lazy bucket refuses the second, though the
      eager one is full. */
  lemma OverflowStarves(c: Settings, key: string, t: int, k: nat)
    requires k >= 1 && Times(k, c.refillEvery) <= INT64_MAX
    requires c.capacity - 1 + Times(k - 1, c.refillTokens) <= INT64_MAX < c.capacity - 1 + Times(k, c.refillTokens)
    ensures var trace := [Request(key, t), Request(key, t + Times(k, c.refillEvery))];
            !Answer(Stepper(c), map[], trace) && Answer(EagerStepper(c), map[], trace)
  {
    var now := t + Times(k, c.refillEvery);
    var front, trace := [Request(key, t)], [Request(key, t), Request(key, now)];
    assert Front(trace) == front && Front(front) == [];
    assert Run(Stepper(c), map[], front) == map[key := Created(c, t)];
    assert Run(EagerStepper(c), map[], front) == map[key := Eager(c.capacity - 1, t + c.refillEvery)];
    hide Run, Ticked, Refilled, Times, Whole;
    JustOverflows(c, k);
    Aligned(k, c.refillEvery);
    TimesStep(0, c.refillEvery);
    TimesMonotone(1, k, c.refillEvery);
    assert Advance(c, Created(c, t), now).tokens < 0;
    TickedIs(c, Eager(c.capacity - 1, t + c.refillEvery), now, k);
  }

  /** A setting it happens with: the second refill of 2 to the power 62 tokens overflows. */
  const HUGE_REFILLS: Settings := Config(10, 0x4000_0000_0000_0000, 1)

  lemma HugeRefillsStarve(key: string)
    ensures !SameAnswer(HUGE_REFILLS, [Request(key, 0), Request(key, 2)])
  {
    assert Times(2, 1) == 2;
    assert Times(1, 0x4000_0000_0000_0000) == 0x4000_0000_0000_0000;
    assert Times(2, 0x4000_0000_0000_0000) == 0x8000_0000_0000_0000;
    hide Answer, Times, Stepper, EagerStepper;
    OverflowStarves(HUGE_REFILLS, key, 0, 2);
  }

  ghost predicate SameAnswer(c: Settings, trace: seq<Request>)
    requires trace != []
  {
    Answer(Stepper(c), map[], trace) == Answer(EagerStepper(c), map[], trace)
  }

  lemma NoRoomDiffers(c: Settings, lo: int, hi: int) returns (trace: seq<Request>)
    requires lo <= hi && hi - lo <= INT64_MAX && !Roomy(c, lo, hi)
    ensures trace != [] && Within(trace, lo, hi) && !SameAnswer(c, trace)
  {
    hide Times, Whole, Answer;
    WholeNat(hi - lo, c.refillEvery);
    var k := LeastOverflow(c, Whole(hi - lo, c.refillEvery));
    WholeBounds(hi - lo, c.refillEvery);
    TimesMonotone(k, Whole(hi - lo, c.refillEvery), c.refillEvery);
    TimesNat(k, c.refillEvery);
    trace := [Request("", lo), Request("", lo + Times(k, c.refillEvery))];
    OverflowStarves(c, "", lo, k);
  }

  /** Over a span of time, the lazy bucket gives the answers of the eager one on every trace
      exactly when the refills of the whole span, on top of a bucket asked once, fit in 64 bits. */
  lemma LazyIsEagerIff(c: Settings, lo: int, hi: int)
    requires lo <= hi && hi - lo <= INT64_MAX
    ensures (forall trace: seq<Request> :: trace != [] && Within(trace, lo, hi) ==> SameAnswer(c, trace)) <==>
            c.capacity - 1 + Times(Whole(hi - lo, c.refillEvery), c.refillTokens) <= INT64_MAX
  {
    hide Within, SameAnswer;
    if Roomy(c, lo, hi) {
      forall trace: seq<Request> | trace != [] && Within(trace, lo, hi)
        ensures SameAnswer(c, trace)
      {
        RoomyIsSame(c, trace, lo, hi);
      }
    } else {
      var trace := NoRoomDiffers(c, lo, hi);
    }
  }

  lemma RoomyIsSame(c: Settings, trace: seq<Request>, lo: int, hi: int)
    requires trace != [] && Within(trace, lo, hi) && Roomy(c, lo, hi)
    ensures SameAnswer(c, trace)
  {
    hide Answer, Roomy, Within;
    LazyRefinesEager(c, trace, lo, hi);
  }

  lemma Aligned(k: int, every: int)
    requires every > 0
    ensures Whole(Times(k, every), every) == k
  {
    hide Times, Whole;
    WholeBelowIff(Times(k, every), every, k);
    WholeBelowIff(Times(k, every), every, k + 1);
    TimesStep(k, every);
  }

  // --------------------------------------------------------------- the bound

  /** When a key was first seen; its ticks are whole periods after that. */
  function Origin(trace: seq<Request>, key: string): Option<int> {
    if trace == [] then None
    else match Origin(Front(trace), key)
         case Some(t) => Some(t)
         case None => if Last(trace).key == key then Some(Last(trace).now) else None
  }

  function TicksUpto(origin: int, every: int, t: int): nat
    requires every > 0
  {
    if t < origin then 0
    else
      WholeNat(t - origin, every);
      Whole(t - origin, every)
  }

  /** The k-th tick has come by `t` exactly when it is among the first `TicksUpto(t)`. */
  lemma TicksUptoIff(origin: int, every: int, t: int, k: int)
    requires every > 0 && k >= 1
    ensures origin + Times(k, every) <= t <==> k <= TicksUpto(origin, every, t)
  {
    hide Times, Whole;
    WholeBelowIff(t - origin, every, k);
    TimesMonotone(1, k, every);
    TimesStep(0, every);
  }

  /** How many ticks of a key lie after `s` and not after `e`. */
  function TicksIn(c: Settings, trace: seq<Request>, key: string, s: int, e: int): int {
    match Origin(trace, key)
    case None => 0
    case Some(origin) => TicksUpto(origin, c.refillEvery, e) - TicksUpto(origin, c.refillEvery, s)
  }

  function Pos(x: int): nat {
    if x < 0 then 0 else x
  }

  /** What was accepted from `s` on and what is left were once in a full bucket or came with a
      tick after `s`. */
  ghost predicate Paid(c: Settings, b: Bucket, origin: int, accepted: nat, s: int) {
    var j := Whole(b.seenAt - origin, c.refillEvery);
    && b.seenAt == origin + Times(j, c.refillEvery)
    && j >= 0
    && b.tokens <= c.capacity
    && (accepted > 0 ==>
          && TicksUpto(origin, c.refillEvery, s) <= j
          && accepted + Pos(b.tokens) <= c.capacity + Times(j - TicksUpto(origin, c.refillEvery, s), c.refillTokens))
  }

  lemma AdvanceIsPaid(c: Settings, b: Bucket, origin: int, accepted: nat, s: int, now: int)
    requires Paid(c, b, origin, accepted, s) && Since(now, b.seenAt) == now - b.seenAt
    ensures Paid(c, Advance(c, b, now), origin, accepted, s)
    ensures now < Advance(c, b, now).seenAt + c.refillEvery
    ensures b.seenAt <= Advance(c, b, now).seenAt
    ensures Advance(c, b, now).seenAt <= now || Advance(c, b, now) == b
  {
    hide Times, Whole, Refilled, TicksUpto;
    var elapsed := now - b.seenAt;
    if elapsed >= c.refillEvery {
      var k := Whole(elapsed, c.refillEvery);
      var j := Whole(b.seenAt - origin, c.refillEvery);
      WholeNat(elapsed, c.refillEvery);
      WholeBounds(elapsed, c.refillEvery);
      TimesNat(k, c.refillEvery);
      TimesSum(j, k, c.refillEvery);
      Aligned(j + k, c.refillEvery);
      RefillIsNotMore(c, b.tokens, k);
      TimesNat(k, c.refillTokens);
      if accepted > 0 {
        TimesSum(j - TicksUpto(origin, c.refillEvery, s), k, c.refillTokens);
      }
    }
  }

  lemma TakeIsPaid(c: Settings, b: Bucket, origin: int, accepted: nat, s: int, now: int)
    requires Paid(c, b, origin, accepted, s) && b.tokens > 0
    requires s <= now < b.seenAt + c.refillEvery
    ensures Paid(c, Take(b).0, origin, accepted + 1, s)
  {
    hide Times, Whole;
    var j := Whole(b.seenAt - origin, c.refillEvery);
    if accepted == 0 {
      WholeBelowIff(s - origin, c.refillEvery, j + 1);
      TimesStep(j, c.refillEvery);
      TimesNat(j - TicksUpto(origin, c.refillEvery, s), c.refillTokens);
    }
  }

  ghost predicate KeyIsPaid(c: Settings, trace: seq<Request>, key: string, s: int, e: int, lo: int, hi: int) {
    var buckets := Run(Stepper(c), map[], trace);
    var accepted := CountIn(Accepted(Stepper(c), map[], trace, key), s, e);
    if key in buckets then
      && Origin(trace, key).Some?
      && lo <= buckets[key].seenAt <= hi && buckets[key].seenAt <= e
      && Paid(c, buckets[key], Origin(trace, key).value, accepted, s)
    else
      accepted == 0 && Origin(trace, key).None?
  }

  lemma CreatedIsPaid(c: Settings, now: int, accepted: nat, s: int)
    requires accepted <= 1 && (accepted == 1 ==> s <= now)
    ensures Paid(c, Created(c, now), now, accepted, s) && Created(c, now).seenAt == now
  {
    TimesStep(0, c.refillEvery);
    TimesStep(0, c.refillTokens);
    Aligned(0, c.refillEvery);
  }

  lemma {:induction false} EveryKeyIsPaid(c: Settings, trace: seq<Request>, key: string, s: int, e: int, lo: int, hi: int)
    requires Within(trace, lo, hi) && forall i :: 0 <= i < |trace| ==> trace[i].now <= e
    ensures KeyIsPaid(c, trace, key, s, e, lo, hi)
    decreases |trace|
  {
    if trace != [] {
      var before, r := Front(trace), Last(trace);
      FrontKeeps(trace, lo, hi);
      EveryKeyIsPaid(c, before, key, s, e, lo, hi);
      AcceptedGrows(Stepper(c), map[], trace, key, s, e);
      var accepted := CountIn(Accepted(Stepper(c), map[], before, key), s, e);
      hide Paid, Advance, Take, CountIn, Accepted, Within, Created;
      var buckets := Run(Stepper(c), map[], before);
      if r.key == key {
        if key !in buckets {
          CreatedIsPaid(c, r.now, if s <= r.now then 1 else 0, s);
        } else {
          UseIsPaid(c, buckets[key], Origin(before, key).value, accepted, s, r.now);
        }
      }
    }
  }

  lemma UseIsPaid(c: Settings, b: Bucket, origin: int, accepted: nat, s: int, now: int)
    requires Paid(c, b, origin, accepted, s) && Since(now, b.seenAt) == now - b.seenAt
    ensures var (b', ok) := Take(Advance(c, b, now));
            && Paid(c, b', origin, accepted + (if ok && s <= now then 1 else 0), s)
            && b.seenAt <= b'.seenAt
            && (b'.seenAt <= now || b'.seenAt == b.seenAt)
  {
    hide Paid, Advance;
    AdvanceIsPaid(c, b, origin, accepted, s, now);
    var b' := Advance(c, b, now);
    if b'.tokens > 0 {
      if s <= now {
        TakeIsPaid(c, b', origin, accepted, s, now);
      } else {
        SpentIsPaid(c, b', origin, accepted, s);
      }
    }
  }

  lemma SpentIsPaid(c: Settings, b: Bucket, origin: int, accepted: nat, s: int)
    requires Paid(c, b, origin, accepted, s) && b.tokens > 0
    ensures Paid(c, Take(b).0, origin, accepted, s)
  {
    hide Times, Whole, TicksUpto;
  }

  /** On a clock that does not go back, the requests accepted for a key from `s` to `e` are at
      most a full bucket and what the ticks in between brought. */
  lemma {:induction false} BurstIsBounded(c: Settings, trace: seq<Request>, key: string, s: int, e: int, lo: int, hi: int)
    requires Within(trace, lo, hi) && NonDecreasing(trace) && s <= e
    ensures CountIn(Accepted(Stepper(c), map[], trace, key), s, e) <=
            c.capacity + Times(TicksIn(c, trace, key, s, e), c.refillTokens)
    decreases |trace|
  {
    if trace == [] {
      TimesStep(0, c.refillTokens);
    } else if Last(trace).now > e {
      FrontKeeps(trace, lo, hi);
      BurstIsBounded(c, Front(trace), key, s, e, lo, hi);
      AcceptedGrows(Stepper(c), map[], trace, key, s, e);
      hide CountIn, Accepted, Times;
      OriginStays(c, trace, key, s, e);
    } else {
      EveryKeyIsPaid(c, trace, key, s, e, lo, hi);
      hide CountIn, Times, Run;
      PaidIsBounded(c, trace, key, s, e, lo, hi);
    }
  }

  /** A key first seen after `e` has no tick up to `e`. */
  lemma OriginStays(c: Settings, trace: seq<Request>, key: string, s: int, e: int)
    requires trace != [] && s <= e < Last(trace).now
    ensures TicksIn(c, trace, key, s, e) == TicksIn(c, Front(trace), key, s, e)
  {
  }

  lemma PaidIsBounded(c: Settings, trace: seq<Request>, key: string, s: int, e: int, lo: int, hi: int)
    requires KeyIsPaid(c, trace, key, s, e, lo, hi) && s <= e
    ensures CountIn(Accepted(Stepper(c), map[], trace, key), s, e) <=
            c.capacity + Times(TicksIn(c, trace, key, s, e), c.refillTokens)
  {
    hide Times, Whole, CountIn, Run, Accepted;
    var buckets := Run(Stepper(c), map[], trace);
    if key in buckets {
      var origin := Origin(trace, key).value;
      var seen := buckets[key].seenAt;
      var from := TicksUpto(origin, c.refillEvery, s);
      WholeMonotone(seen - origin, e - origin, c.refillEvery);
      TicksGrow(origin, c.refillEvery, s, e);
      TimesNat(TicksUpto(origin, c.refillEvery, e) - from, c.refillTokens);
      TimesNat(Whole(seen - origin, c.refillEvery), c.refillEvery);
      TimesMonotone(Whole(seen - origin, c.refillEvery) - from, TicksUpto(origin, c.refillEvery, e) - from, c.refillTokens);
    } else {
      TimesStep(0, c.refillTokens);
    }
  }

  lemma TicksGrow(origin: int, every: int, s: int, e: int)
    requires every > 0 && s <= e
    ensures TicksUpto(origin, every, s) <= TicksUpto(origin, every, e)
  {
    hide Whole;
    WholeMonotone(s - origin, e - origin, every);
  }
}
