/** The relay's retry policy and its capped exponential backoff, in 64-bit
    arithmetic. */
module Retry {
  import opened Instants
  import opened Int64

  datatype Policy = Policy(initial: int64, max: int64, ttl: int64)

  /** `NewRelay` replaces settings that are not positive. */
  function WithDefaults(p: Policy): (r: Policy)
    ensures r.initial > 0 && r.max > 0 && r.ttl > 0
    ensures if p.initial > 0 then r.initial == p.initial else r.initial == SECOND
    ensures if p.max > 0 then r.max == p.max else r.max == MINUTE
    ensures if p.ttl > 0 then r.ttl == p.ttl else r.ttl == 30 * SECOND
  {
    Policy(if p.initial <= 0 then SECOND else p.initial,
           if p.max <= 0 then MINUTE else p.max,
           if p.ttl <= 0 then 30 * SECOND else p.ttl)
  }

  /** The wait after `more` further doublings of `wait`. */
  function Doubled(wait: int64, max: int64, more: nat): int64
    decreases more
  {
    if more == 0 then wait
    else
      var next := Wrap(2 * wait);
      if next >= max then max else Doubled(next, max, more - 1)
  }

  function Backoff(p: Policy, attempt: int): int64 {
    Doubled(p.initial, p.max, if attempt <= 0 then 0 else attempt - 1)
  }

  method ComputeBackoff(p: Policy, attempt: int) returns (wait: int64)
    ensures wait == Backoff(p, attempt)
  {
    var n := if attempt <= 0 then 1 else attempt;
    wait := p.initial;
    var i := 1;
    while i < n
      invariant 1 <= i <= n
      invariant Doubled(p.initial, p.max, n - 1) == Doubled(wait, p.max, n - i)
    {
      wait := Wrap(wait * 2);
      if wait >= p.max {
        return p.max;
      }
      i := i + 1;
    }
  }

  // --------------------------------------------- the schedule it is meant to be

  function Pow2(k: nat): (r: int)
    ensures r >= 1
  {
    if k == 0 then 1 else 2 * Pow2(k - 1)
  }

  /** `min(initial * 2^(n-1), max)`, in unbounded arithmetic. */
  function Schedule(p: Policy, n: nat): int
    requires n >= 1
  {
    Min(p.initial * Pow2(n - 1), p.max)
  }

  /** The first value at or above `max` that doubling `wait` at least once runs into. */
  function FirstReach(wait: int, max: int): (r: int)
    requires 0 < wait
    ensures r >= 2 * wait && r >= max
    decreases max - wait
  {
    if 2 * wait >= max then 2 * wait else FirstReach(2 * wait, max)
  }

  /** What a caller can check of a policy: the cap is not below the start, and the
      doubling that reaches the cap still fits in 64 bits. */
  predicate Fits(p: Policy)
    requires p.initial > 0
  {
    p.initial <= p.max && FirstReach(p.initial, p.max) <= INT64_MAX
  }

  lemma PowerGrows(b: int, k: nat)
    requires b > 0 && k > 0
    ensures b * Pow2(k) == (2 * b) * Pow2(k - 1) && b * Pow2(k) >= 2 * b
  {
    assert Pow2(k - 1) >= 1;
    assert (2 * b) * Pow2(k - 1) >= 2 * b * 1;
  }

  lemma {:induction false} DoubledIsCapped(wait: int64, max: int64, k: nat)
    requires 0 < wait <= max && FirstReach(wait, max) <= INT64_MAX
    ensures Doubled(wait, max, k) == Min(wait * Pow2(k), max)
    decreases k
  {
    if k > 0 {
      PowerGrows(wait, k);
      if 2 * wait < max {
        DoubledIsCapped(2 * wait, max, k - 1);
      }
    }
  }

  lemma OneDoublingOverflows(wait: int64, max: int64)
    requires 0 < wait <= max && 2 * wait > INT64_MAX
    ensures Doubled(wait, max, 1) < 0 < Min(wait * Pow2(1), max)
  {
    assert Pow2(1) == 2;
    assert Wrap(2 * wait) == 2 * wait - INT64_SPAN;
    assert Doubled(Wrap(2 * wait), max, 0) == Wrap(2 * wait);
  }

  lemma DoubledOnce(wait: int64, max: int64, k: nat)
    requires 0 < wait && 2 * wait < max && k > 0
    ensures Doubled(wait, max, k) == Doubled(2 * wait, max, k - 1)
  {
  }

  /** Past the limit the wait turns negative instead of staying at the cap. */
  lemma {:induction false} DoubledOverflows(wait: int64, max: int64) returns (k: nat)
    requires 0 < wait <= max && FirstReach(wait, max) > INT64_MAX
    ensures k > 0 && Doubled(wait, max, k) != Min(wait * Pow2(k), max)
    decreases max - wait
  {
    hide Doubled, Pow2, Wrap, Min;
    if 2 * wait >= max {
      k := 1;
      OneDoublingOverflows(wait, max);
    } else {
      var j := DoubledOverflows(2 * wait, max);
      k := j + 1;
      PowerGrows(wait, k);
      DoubledOnce(wait, max, k);
    }
  }

  /** A policy that does not fit: the second wait is negative, where the cap was meant. */
  lemma LargePolicyOverflows()
    ensures var p := Policy(0x4000_0000_0000_0000, INT64_MAX, 1);
            Backoff(p, 2) == -INT64_MAX - 1 && Schedule(p, 2) == INT64_MAX
  {
    var p := Policy(0x4000_0000_0000_0000, INT64_MAX, 1);
    assert Wrap(2 * p.initial) == -INT64_MAX - 1;
    assert Doubled(p.initial, p.max, 1) == Doubled(-INT64_MAX - 1, p.max, 0);
    assert Pow2(1) == 2;
  }

  lemma BackoffMeetsAt(p: Policy, n: nat)
    requires p.initial > 0 && p.max > 0 && Fits(p) && n >= 1
    ensures Backoff(p, n) == Schedule(p, n)
  {
    DoubledIsCapped(p.initial, p.max, n - 1);
  }

  /** The backoff follows its schedule for every attempt exactly when the policy fits. */
  lemma BackoffMeetsScheduleIff(p: Policy)
    requires p.initial > 0 && p.max > 0
    ensures (forall n: nat :: n >= 1 ==> Backoff(p, n) == Schedule(p, n)) <==> Fits(p)
  {
    if Fits(p) {
      forall n: nat | n >= 1
        ensures Backoff(p, n) == Schedule(p, n)
      {
        BackoffMeetsAt(p, n);
      }
    } else if p.initial > p.max {
      assert Backoff(p, 1) == p.initial && Schedule(p, 1) == p.max;
    } else {
      var k := DoubledOverflows(p.initial, p.max);
      assert Backoff(p, k + 1) != Schedule(p, k + 1);
    }
  }

  /** Every policy with initial <= max < 2^62 fits. */
  lemma {:induction false} SmallPoliciesFit(wait: int, max: int)
    requires 0 < wait <= max < 0x4000_0000_0000_0000
    ensures FirstReach(wait, max) <= INT64_MAX
    decreases max - wait
  {
    if 2 * wait < max {
      SmallPoliciesFit(2 * wait, max);
    }
  }

  lemma {:induction false} Pow2Monotone(a: nat, b: nat)
    requires a <= b
    ensures Pow2(a) <= Pow2(b)
    decreases b
  {
    if a < b {
      Pow2Monotone(a, b - 1);
    }
  }

  lemma MulMonotone(c: int, a: int, b: int)
    requires c > 0 && 1 <= a <= b
    ensures c <= c * a <= c * b
  {
  }

  /** Under a fitting policy, waits are positive, never shrink and never pass the cap. */
  lemma BackoffIsMonotone(p: Policy, n: nat, m: nat)
    requires p.initial > 0 && p.max > 0 && Fits(p) && 1 <= n <= m
    ensures 0 < Backoff(p, n) <= Backoff(p, m) <= p.max
  {
    BackoffMeetsAt(p, n);
    BackoffMeetsAt(p, m);
    Pow2Monotone(n - 1, m - 1);
    hide Backoff, Pow2, FirstReach;
    MulMonotone(p.initial, Pow2(n - 1), Pow2(m - 1));
  }
}
