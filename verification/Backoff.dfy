/** ExponentialBackoff: the delay bound doubles with each failure, up to a maximum. Milliseconds. */
module Backoff {

  function Min(a: int, b: int): int { if a <= b then a else b }

  function Power(b: nat, k: nat): nat {
    if k == 0 then 1 else b * Power(b, k - 1)
  }

  /** The bound after `k` calls of next since the last reset. */
  function Bound(base: nat, factor: nat, max: nat, k: nat): int {
    Min(base * Power(factor, k), max)
  }

  const RECONNECT_BASE: nat := 100
  const RECONNECT_MAX: nat := 120_000
  const RECONNECT_FACTOR: nat := 2

  /** The bound the client uses, k failed reconnects after the last successful one. */
  function ReconnectBound(k: nat): int {
    Bound(RECONNECT_BASE, RECONNECT_FACTOR, RECONNECT_MAX, k)
  }

  lemma {:induction false} PowerPositive(b: nat, k: nat)
    requires b >= 1
    ensures Power(b, k) >= 1
  {
    if k == 0 {
    } else {
      PowerPositive(b, k - 1);
      MulAtLeast(b, Power(b, k - 1));
    }
  }

  lemma {:induction false} MulAtLeast(a: nat, b: nat)
    requires a >= 1 && b >= 1
    ensures a * b >= 1 && a * b >= a && a * b >= b
  {
    assert (a - 1) * b >= 0 && a * (b - 1) >= 0;
  }

  lemma {:induction false} CapOnce(p: nat, factor: nat, max: nat)
    requires 0 < max && factor >= 1
    ensures Min(Min(p, max) * factor, max) == Min(p * factor, max)
  {
    if p > max {
      MulAtLeast(factor, max);
      MulAtLeast(factor, p);
    }
  }

  lemma MulAssociative(a: nat, b: nat, c: nat)
    ensures a * (b * c) == (a * c) * b
  {
  }

  /** Saturating early does not lose anything: capping each step equals capping the closed form. */
  lemma {:induction false} CappedStep(base: nat, factor: nat, max: nat, k: nat)
    requires 0 < base <= max && factor >= 1
    ensures Min(Bound(base, factor, max, k) * factor, max) == Bound(base, factor, max, k + 1)
  {
    MulAssociative(base, factor, Power(factor, k));
    CapOnce(base * Power(factor, k), factor, max);
  }

  lemma {:induction false} BoundPositive(base: nat, factor: nat, max: nat, k: nat)
    requires 0 < base <= max && factor >= 1
    ensures 0 < Bound(base, factor, max, k) <= max
  {
    PowerPositive(factor, k);
    MulAtLeast(base, Power(factor, k));
  }

  /** The bounds after so many failures, in milliseconds. */
  lemma {:induction false} ReconnectBounds(k: nat)
    ensures ReconnectBound(0) == 100 && ReconnectBound(1) == 200 && ReconnectBound(2) == 400
    ensures k <= 9 ==> ReconnectBound(k + 1) == 2 * ReconnectBound(k)
    ensures ReconnectBound(10) == 102_400
    ensures k > 10 ==> ReconnectBound(k) == 120_000
  {
    FirstPowers();
    if k > 10 {
      PowerFrom(k, 11);
    }
  }

  lemma {:induction false} FirstPowers()
    ensures Power(2, 0) == 1 && Power(2, 1) == 2 && Power(2, 2) == 4 && Power(2, 3) == 8 && Power(2, 4) == 16
    ensures Power(2, 5) == 32 && Power(2, 6) == 64 && Power(2, 7) == 128 && Power(2, 8) == 256 && Power(2, 9) == 512
    ensures Power(2, 10) == 1024 && Power(2, 11) == 2048
  {
    assert Power(2, 2) == 4;
    assert Power(2, 4) == 16;
    assert Power(2, 6) == 64;
    assert Power(2, 8) == 256;
    assert Power(2, 10) == 1024;
  }

  lemma {:induction false} PowerFrom(k: nat, from: nat)
    requires k >= from
    ensures Power(2, k) >= Power(2, from)
  {
    if k == from {
    } else {
      PowerFrom(k - 1, from);
    }
  }

  class ExponentialBackoff {
    const mBaseDelay: nat
    const mMaxDelay: nat
    const mFactor: nat
    var mDelay: int
    /** Calls of Next since construction or the last Reset. */
    ghost var failures: nat

    ghost predicate Valid()
      reads this
    {
      && 0 < mBaseDelay <= mMaxDelay && 1 <= mFactor < 256
      && mDelay == Bound(mBaseDelay, mFactor, mMaxDelay, failures)
    }

    constructor (baseDelay: nat, maxDelay: nat, factor: nat)
      requires 0 < baseDelay <= maxDelay && 1 <= factor < 256
      ensures Valid() && failures == 0 && mDelay == mBaseDelay
      ensures mBaseDelay == baseDelay && mMaxDelay == maxDelay && mFactor == factor
    {
      mBaseDelay, mMaxDelay, mFactor := baseDelay, maxDelay, factor;
      mDelay := baseDelay;
      failures := 0;
    }

    method Next()
      requires Valid()
      modifies this
      ensures Valid() && failures == old(failures) + 1
      ensures mDelay == Min(old(mDelay) * mFactor, mMaxDelay)
    {
      CappedStep(mBaseDelay, mFactor, mMaxDelay, failures);
      mDelay := Min(mDelay * mFactor, mMaxDelay);
      failures := failures + 1;
    }

    method Reset()
      requires Valid()
      modifies this
      ensures Valid() && failures == 0 && mDelay == mBaseDelay
    {
      mDelay := mBaseDelay;
      failures := 0;
    }

    /** `random` is the value of rand(); the modulus is never zero. */
    method Delay(random: nat) returns (d: int)
      requires Valid()
      ensures 0 <= d < mDelay <= mMaxDelay && d == random % mDelay
    {
      BoundPositive(mBaseDelay, mFactor, mMaxDelay, failures);
      d := random % mDelay;
    }
  }
}
