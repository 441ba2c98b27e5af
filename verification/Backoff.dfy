// The retry-gate arithmetic of the readiness registry: an exponential delay
// computed in Go's int64 nanoseconds, where a left shift wraps around.
module Backoff {

  const TWO_63: int := 0x8000_0000_0000_0000
  const TWO_64: int := 0x1_0000_0000_0000_0000
  const TWO_34: int := 0x4_0000_0000

  // The largest shift the registry ever applies.
  const MAX_SHIFT: nat := 30

  // A time.Duration is int64 nanoseconds; a Span is a positive one.
  type Duration = d: int | -TWO_63 <= d < TWO_63
  type Span = d: int | 0 < d < TWO_63 witness 1

  function Pow2(k: nat): (p: int)
    ensures p >= 1
  {
    if k == 0 then 1 else 2 * Pow2(k - 1)
  }

  // The int64 a mathematical integer is stored as.
  function WrapInt64(x: int): (w: int)
    ensures -TWO_63 <= w < TWO_63
    ensures -TWO_63 <= x < TWO_63 ==> w == x
  {
    (x + TWO_63) % TWO_64 - TWO_63
  }

  // Go's `base << k` on int64.
  function ShiftLeft(base: Span, k: nat): int {
    WrapInt64(base * Pow2(k))
  }

  function Min(a: int, b: int): int { if a <= b then a else b }

  function Max(a: int, b: int): int { if a >= b then a else b }

  // min(max(streak-1, 0), 30): the exponent of the delay after `streak` failures.
  function Exponent(streak: nat): nat {
    Min(Max(streak - 1, 0), MAX_SHIFT)
  }

  // The delay backoffLocked computes, wrap-around included.
  function Delay(base: Span, backoffMax: Span, recoverMax: Span, streak: nat, readyCount: int): (wait: int)
    ensures 0 < wait <= backoffMax
    ensures readyCount == 0 ==> wait <= recoverMax
  {
    var shifted := ShiftLeft(base, Exponent(streak));
    var capped := if shifted > backoffMax || shifted <= 0 then backoffMax else shifted;
    if readyCount == 0 && capped > recoverMax then recoverMax else capped
  }

  // The delay the documentation describes: exponential, capped, and capped
  // again while nothing serves. No machine arithmetic.
  function IdealDelay(base: Span, backoffMax: Span, recoverMax: Span, streak: nat, readyCount: int): int {
    var capped := Min(base * Pow2(Exponent(streak)), backoffMax);
    if readyCount == 0 then Min(capped, recoverMax) else capped
  }

  lemma {:induction false} Pow2Monotone(a: nat, b: nat)
    requires a <= b
    ensures Pow2(a) <= Pow2(b)
    decreases b
  {
    if a < b {
      Pow2Monotone(a, b - 1);
    }
  }

  lemma Pow2Thirty()
    ensures Pow2(30) == 0x4000_0000
  {
    assert Pow2(5) == 32;
    assert Pow2(10) == 1024;
    assert Pow2(15) == 0x8000;
    assert Pow2(20) == 0x10_0000;
    assert Pow2(25) == 0x200_0000;
  }

  lemma ProductBound(base: int, limit: int, p: int, q: int)
    requires 0 <= base <= limit && 0 <= p <= q
    ensures base * p <= limit * q
  {
    assert base * p <= limit * p;
    assert limit * p <= limit * q;
  }

  // The cap that is in force: a second one applies while nothing serves.
  function Cap(backoffMax: Span, recoverMax: Span, readyCount: int): Span {
    if readyCount == 0 then Min(backoffMax, recoverMax) else backoffMax
  }

  // When the shift does no visible harm: its product fits, or what it wraps to
  // is one the code replaces by the cap anyway.
  predicate Harmless(base: Span, k: nat, cap: Span) {
    base * Pow2(k) < TWO_63 || ShiftLeft(base, k) <= 0 || ShiftLeft(base, k) >= cap
  }

  // The computed delay is the documented one exactly when the shift is
  // harmless for the cap in force.
  lemma DelayExactly(base: Span, backoffMax: Span, recoverMax: Span, streak: nat, readyCount: int)
    ensures Delay(base, backoffMax, recoverMax, streak, readyCount)
         == IdealDelay(base, backoffMax, recoverMax, streak, readyCount)
       <==> Harmless(base, Exponent(streak), Cap(backoffMax, recoverMax, readyCount))
  {
    var x := base * Pow2(Exponent(streak));
    ProductBound(1, base, 1, Pow2(Exponent(streak)));
    assert x < TWO_63 ==> WrapInt64(x) == x;
  }

  // A base no streak and no cap can make the shift harm.
  predicate SafeBase(base: Span) {
    forall k: nat | k <= MAX_SHIFT :: base * Pow2(k) < TWO_63 || ShiftLeft(base, k) <= 0
  }

  // An overflowing shift has moved at least one place, so what is left is even
  // and below the largest cap.
  lemma WrappedBelowTop(base: Span, k: nat)
    requires base * Pow2(k) >= TWO_63
    ensures ShiftLeft(base, k) < TWO_63 - 1
  {
    assert k > 0;
    Doubled(base, k);
    WrapEven(base * Pow2(k - 1));
  }

  lemma Doubled(base: int, k: nat)
    requires k > 0
    ensures base * Pow2(k) == 2 * (base * Pow2(k - 1))
  {
    var p := Pow2(k - 1);
    assert Pow2(k) == 2 * p;
  }

  lemma WrapEven(half: int)
    ensures WrapInt64(2 * half) < TWO_63 - 1
  {
    var q := (2 * half + TWO_63) / TWO_64;
    assert WrapInt64(2 * half) == 2 * half - q * TWO_64;
  }

  // The delay is the documented one for every streak, every pair of caps and
  // every ready count exactly when the base is safe.
  lemma SafeBaseExactly(base: Span)
    ensures SafeBase(base)
       <==> forall backoffMax: Span, recoverMax: Span, streak: nat, readyCount: int ::
              Delay(base, backoffMax, recoverMax, streak, readyCount)
              == IdealDelay(base, backoffMax, recoverMax, streak, readyCount)
  {
    forall backoffMax: Span, recoverMax: Span, streak: nat, readyCount: int | SafeBase(base)
      ensures Delay(base, backoffMax, recoverMax, streak, readyCount)
           == IdealDelay(base, backoffMax, recoverMax, streak, readyCount)
    {
      DelayExactly(base, backoffMax, recoverMax, streak, readyCount);
    }
    if !SafeBase(base) {
      var k: nat :| k <= MAX_SHIFT && base * Pow2(k) >= TWO_63 && ShiftLeft(base, k) > 0;
      WrappedBelowTop(base, k);
      var top: Span := TWO_63 - 1;
      assert Exponent(k + 1) == k;
      DelayExactly(base, top, top, k + 1, 1);
      assert Delay(base, top, top, k + 1, 1) != IdealDelay(base, top, top, k + 1, 1);
    }
  }

  // Every base up to 2^34 ns (about 17 s) is safe.
  lemma SmallBaseSafe(base: Span)
    requires base <= TWO_34
    ensures SafeBase(base)
  {
    forall k: nat | k <= MAX_SHIFT
      ensures base * Pow2(k) < TWO_63 || ShiftLeft(base, k) <= 0
    {
      Pow2Monotone(k, 30);
      Pow2Thirty();
      ProductBound(base, TWO_34, Pow2(k), 0x4000_0000);
      var x := base * Pow2(k);
      if TWO_63 <= x < TWO_64 {
        assert WrapInt64(x) == x - TWO_64;
      } else if x == TWO_64 {
        assert WrapInt64(x) == 0;
      }
    }
  }

  // So up to 2^34 ns the documented formula holds throughout.
  lemma DelayExact(base: Span, backoffMax: Span, recoverMax: Span, streak: nat, readyCount: int)
    requires base <= TWO_34
    ensures Delay(base, backoffMax, recoverMax, streak, readyCount)
         == IdealDelay(base, backoffMax, recoverMax, streak, readyCount)
  {
    SmallBaseSafe(base);
    SafeBaseExactly(base);
  }

  // One nanosecond more is unsafe: the 31st failure wraps to a positive delay of
  // about a second, far below both caps.
  lemma DelayNotExactAbove()
    ensures var base: Span := TWO_34 + 1;
            var backoffMax: Span := 300_000_000_000;
            && !SafeBase(base)
            && Delay(base, backoffMax, backoffMax, 31, 1) == 0x4000_0000
            && IdealDelay(base, backoffMax, backoffMax, 31, 1) == backoffMax
  {
    Pow2Thirty();
    assert Exponent(31) == 30;
    assert (TWO_34 + 1) * 0x4000_0000 == TWO_64 + 0x4000_0000;
    assert WrapInt64(TWO_64 + 0x4000_0000) == 0x4000_0000;
    SafeBaseExactly(TWO_34 + 1);
  }

  // With a safe base a longer streak never shortens the wait.
  lemma DelayMonotone(base: Span, backoffMax: Span, recoverMax: Span, s: nat, t: nat, readyCount: int)
    requires SafeBase(base)
    requires s <= t
    ensures Delay(base, backoffMax, recoverMax, s, readyCount)
         <= Delay(base, backoffMax, recoverMax, t, readyCount)
  {
    DelayExactly(base, backoffMax, recoverMax, s, readyCount);
    DelayExactly(base, backoffMax, recoverMax, t, readyCount);
    Pow2Monotone(Exponent(s), Exponent(t));
    ProductBound(base, base, Pow2(Exponent(s)), Pow2(Exponent(t)));
  }
}
