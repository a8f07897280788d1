/** Signed 64-bit arithmetic: `int`, `int64` and `time.Duration` all wrap around. */
module Int64 {

  const INT64_SPAN: int := 0x1_0000_0000_0000_0000
  const INT64_MAX: int := 0x7fff_ffff_ffff_ffff

  type int64 = x: int | -INT64_MAX - 1 <= x <= INT64_MAX

  function Min(a: int, b: int): int {
    if a > b then b else a
  }

  /** Reduces a sum to the signed 64-bit range. */
  function Wrap(x: int): (r: int64)
    ensures (r - x) % INT64_SPAN == 0
    ensures -INT64_MAX - 1 <= x <= INT64_MAX ==> r == x
  {
    var low := x % INT64_SPAN;
    if low <= INT64_MAX then low else low - INT64_SPAN
  }

  /** Wrapping a running sum early changes nothing in the end. */
  lemma WrapAbsorbs(x: int, k: int)
    ensures Wrap(Wrap(x) + k) == Wrap(x + k)
  {
    var q := (Wrap(x) - x) / INT64_SPAN;
    assert Wrap(x) + k == (x + k) + q * INT64_SPAN;
    WrapPeriodic(x + k, q);
  }

  lemma WrapPeriodic(x: int, q: int)
    ensures Wrap(x + q * INT64_SPAN) == Wrap(x)
  {
    assert (x + q * INT64_SPAN) % INT64_SPAN == x % INT64_SPAN;
  }
}
