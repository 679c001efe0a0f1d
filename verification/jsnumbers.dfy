/**
 * The few JavaScript number semantics the controllers rely on:
 * how often a `for (let i = 0; i < x; i++)` loop runs for a real bound `x`,
 * the ToInt32 conversion, and the arithmetic shift `a >> k`.
 */
module JsNumbers {

  const Two31: int := 0x8000_0000
  const Two32: int := 0x1_0000_0000

  /** The number of integers `i` with `0 <= i < x`. */
  function CountBelow(x: real): (k: nat)
    ensures x <= 0.0 ==> k == 0
    ensures x > 0.0 ==> (k - 1) as real < x <= k as real
  {
    if x <= 0.0 then 0
    else
      var f := x.Floor;
      if f as real == x then f else f + 1
  }

  /** A natural number `i` is below `CountBelow(x)` exactly when `i < x` holds. */
  lemma CountBelowCounts(x: real, i: nat)
    ensures i < CountBelow(x) <==> (i as real) < x
  {
  }

  /** Subtracting `p` processed items from a bound removes exactly `p` loop iterations. */
  lemma CountBelowShift(x: real, p: nat)
    requires p <= CountBelow(x)
    ensures CountBelow(x - p as real) == CountBelow(x) - p
  {
  }

  /** An integer `t` with `x <= t < x + 1` for positive `x` is the loop count of `x`. */
  lemma CountBelowOfCeiling(x: real, t: int)
    requires x > 0.0
    requires x <= t as real < x + 1.0
    ensures t == CountBelow(x)
  {
  }

  /** Truncation toward zero, as JavaScript's ToInt32 does before wrapping. */
  function Trunc(x: real): (t: int)
    ensures x >= 0.0 ==> 0 <= t && t as real <= x < t as real + 1.0
    ensures x < 0.0 ==> t <= 0 && t as real - 1.0 < x <= t as real
  {
    if x >= 0.0 then x.Floor else -((-x).Floor)
  }

  /** JavaScript's ToInt32 on a finite number: truncate, then wrap modulo 2^32 into the signed range. */
  function ToInt32(x: real): (r: int)
    ensures -Two31 <= r < Two31
    ensures -Two31 <= Trunc(x) < Two31 ==> r == Trunc(x)
    ensures (r - Trunc(x)) % Two32 == 0
  {
    var t := Trunc(x) % Two32;
    if t >= Two31 then t - Two32 else t
  }

  /** `k` successive arithmetic shifts right by one bit (each one floors the half). */
  function Halve(a: int, k: nat): int
    decreases k
  {
    if k == 0 then a else Halve(a / 2, k - 1)
  }

  /** JavaScript's `a >> k` for an int32 `a`: the shift count is taken modulo 32. */
  function Shr(a: int, k: nat): int
  {
    Halve(a, k % 32)
  }

  /** The number of binary digits of `a` (0 for 0). */
  function BitLength(a: nat): nat
  {
    if a == 0 then 0 else 1 + BitLength(a / 2)
  }

  function Pow2(k: nat): (p: nat)
    ensures p >= 1
  {
    if k == 0 then 1 else 2 * Pow2(k - 1)
  }

  /** Shifting once more halves the previous shift. */
  lemma {:induction false} HalveStep(a: int, k: nat)
    decreases k
    ensures Halve(a, k + 1) == Halve(a, k) / 2
  {
    if k > 0 {
      HalveStep(a / 2, k - 1);
    }
  }

  /** A non-negative number shifted by `k` is still positive exactly while `k` is below its bit length. */
  lemma {:induction false} HalvePositive(a: nat, k: nat)
    ensures Halve(a, k) > 0 <==> k < BitLength(a)
  {
    if k > 0 {
      HalvePositive(a / 2, k - 1);
    }
  }

  /** Shifting never makes a non-negative number negative. */
  lemma {:induction false} HalveNonNegative(a: nat, k: nat)
    ensures Halve(a, k) >= 0
  {
    if k > 0 {
      HalveNonNegative(a / 2, k - 1);
    }
  }

  /** Numbers below 2^n have at most n binary digits. */
  lemma {:induction false} BitLengthBound(a: nat, n: nat)
    requires a < Pow2(n)
    ensures BitLength(a) <= n
  {
    if a > 0 {
      assert n > 0;
      BitLengthBound(a / 2, n - 1);
    }
  }

  /** Every int32 shift count the snap-point loop uses is below 32, so `Shr` is plain halving there. */
  lemma Int32BitLength(a: nat)
    requires a < Two31
    ensures BitLength(a) <= 31
  {
    assert Pow2(10) == 1024;
    assert Pow2(20) == 1024 * 1024;
    assert Pow2(31) == Two31;
    BitLengthBound(a, 31);
  }
}
