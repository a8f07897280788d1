/** Whole periods in a stretch of time, as named operations. */
module Periods {

  function Times(k: int, x: int): int {
    k * x
  }

  function Whole(elapsed: int, every: int): int
    requires every > 0
  {
    elapsed / every
  }

  lemma TimesStep(k: int, x: int)
    ensures Times(0, x) == 0 && Times(k + 1, x) == Times(k, x) + x
  {
  }

  lemma TimesSum(a: int, b: int, x: int)
    ensures Times(a + b, x) == Times(a, x) + Times(b, x)
  {
  }

  lemma TimesMonotone(a: int, b: int, x: int)
    requires a <= b && x >= 0
    ensures Times(a, x) <= Times(b, x)
  {
  }

  lemma TimesNat(k: int, x: int)
    requires k >= 0 && x >= 0
    ensures Times(k, x) >= 0
  {
  }

  lemma WholeBounds(elapsed: int, every: int)
    requires every > 0
    ensures Times(Whole(elapsed, every), every) <= elapsed < Times(Whole(elapsed, every), every) + every
  {
  }

  /** Fewer whole periods than `k` have passed exactly when the k-th has not ended. */
  lemma WholeBelowIff(elapsed: int, every: int, k: int)
    requires every > 0
    ensures Whole(elapsed, every) < k <==> elapsed < Times(k, every)
  {
    WholeBounds(elapsed, every);
    var q := Whole(elapsed, every);
    TimesStep(q, every);
    hide Times, Whole;
    if q < k {
      TimesMonotone(q + 1, k, every);
    } else {
      TimesMonotone(k, q, every);
    }
  }

  lemma WholeMonotone(a: int, b: int, every: int)
    requires a <= b && every > 0
    ensures Whole(a, every) <= Whole(b, every)
  {
    hide Times, Whole;
    WholeBelowIff(a, every, Whole(b, every) + 1);
    WholeBounds(b, every);
    TimesStep(Whole(b, every), every);
  }

  lemma WholeNat(elapsed: int, every: int)
    requires elapsed >= 0 && every > 0
    ensures Whole(elapsed, every) >= 0
    ensures Whole(elapsed, every) <= elapsed
  {
    hide Times, Whole;
    WholeBelowIff(elapsed, every, 0);
    TimesStep(0, every);
    AtLeastOne(Whole(elapsed, every), every);
    WholeBounds(elapsed, every);
  }

  lemma AtLeastOne(k: int, every: int)
    requires every > 0
    ensures k >= 0 ==> k <= Times(k, every)
  {
  }
}
