/** Fire-time arithmetic of EventLoop::schedCall: a nominal time perturbed by
    a pseudo-random jitter, computed with C's truncating `/` and `%` on int. */
module Timing {

  /** RAND_MAX of the C library (glibc): rand() returns a value in [0, RandMax]. */
  const RandMax: int := 0x7FFF_FFFF

  /** A value rand() can return. */
  type RandValue = x: int | 0 <= x <= RandMax

  function Abs(x: int): nat
  {
    if x < 0 then -x else x
  }

  /** C's `a / b` on int: the quotient truncated toward zero. */
  function CDiv(a: int, b: int): (q: int)
    requires b != 0
    ensures q * b + CRem(a, b) == a
    ensures a >= 0 && b > 0 ==> q == a / b
  {
    TruncatedDivision(a, b);
    var q := Abs(a) / Abs(b);
    if (a < 0) != (b < 0) then -q else q
  }

  /** Dividing the magnitudes and giving quotient and remainder their C
      signs still multiplies back to the dividend. */
  lemma TruncatedDivision(a: int, b: int)
    requires b != 0
    ensures var q0 := Abs(a) / Abs(b);
            var r0 := Abs(a) % Abs(b);
      (if (a < 0) != (b < 0) then -q0 else q0) * b + (if a < 0 then -r0 else r0) == a
  {
    var m := Abs(b);
    var q0 := Abs(a) / m;
    var r0 := Abs(a) % m;
    assert Abs(a) == q0 * m + r0;
    if b < 0 {
      assert m == -b;
      assert (-q0) * b == q0 * m;
    } else {
      assert m == b;
    }
  }

  /** C's `a % b` on int: the remainder that goes with CDiv, of the sign of a. */
  function CRem(a: int, b: int): (r: int)
    requires b != 0
    ensures a >= 0 ==> 0 <= r < Abs(b)
    ensures a < 0 ==> -(Abs(b) as int) < r <= 0
    ensures 0 <= a < Abs(b) ==> r == a
  {
    var m := Abs(b);
    var r := Abs(a) % m;
    assert 0 <= Abs(a) < m ==> r == Abs(a) by {
      if 0 <= Abs(a) < m {
        ModSmall(Abs(a), m);
      }
    }
    if a < 0 then -r else r
  }

  lemma ModSmall(a: nat, m: nat)
    requires a < m
    ensures a % m == a
  {
  }

  /** The jitter window `j = (after * pct) / 100` of schedCall. */
  function JitterWindow(after: int, pct: int): int
  {
    CDiv(after * pct, 100)
  }

  /** schedCall evaluates `rand() % (2*j)` only when the percentage is
      non-zero; a zero window then divides by zero. */
  predicate JitterDefined(after: int, pct: int)
  {
    pct == 0 || JitterWindow(after, pct) != 0
  }

  /** The fire time schedCall computes from a nominal time `base`, the
      (non-negative) delay, the effective jitter percentage and rand()'s value. */
  function FireTime(base: int, after: int, pct: int, rnd: RandValue): (ts: int)
    requires JitterDefined(after, pct)
    ensures pct == 0 ==> ts == base
    ensures pct != 0 ==>
      var j := JitterWindow(after, pct);
      0 <= ts - base + j < 2 * Abs(j)
    ensures pct != 0 && JitterWindow(after, pct) > 0 ==>
      var j := JitterWindow(after, pct);
      base - j <= ts < base + j
  {
    if pct == 0 then base
    else
      var j := JitterWindow(after, pct);
      base + CRem(rnd, 2 * j) - j
  }

  /** Where schedCall may place a call whose nominal time is `base`: exactly
      there without jitter, otherwise within the jitter window around it,
      and never before `base - after` while the percentage is at most 100. */
  predicate Jittered(ts: int, base: int, after: int, pct: int)
  {
    (pct == 0 ==> ts == base) &&
    (pct != 0 ==> 0 <= ts - base + JitterWindow(after, pct) < 2 * Abs(JitterWindow(after, pct))) &&
    (0 <= after && 0 <= pct <= 100 ==> base - after <= ts)
  }

  /** Every fire time schedCall computes lies where Jittered says. */
  lemma FireTimeJittered(base: int, after: int, pct: int, rnd: RandValue)
    requires JitterDefined(after, pct)
    ensures Jittered(FireTime(base, after, pct, rnd), base, after, pct)
  {
    if 0 <= after && 0 < pct <= 100 {
      JitterWindowWithinDelay(after, pct);
    }
  }

  /** With a percentage in (0, 100] the window never exceeds the delay, so a
      jittered fire time is never before the nominal anchor. */
  lemma JitterWindowWithinDelay(after: int, pct: int)
    requires 0 <= after && 0 < pct <= 100
    ensures 0 <= JitterWindow(after, pct) <= after
  {
    assert 0 <= after * pct <= after * 100;
  }

  /** Every time in the window is the fire time of some rand() value (when
      the window fits in rand()'s range): the jitter covers all of it. */
  lemma FireTimeCovers(base: int, after: int, pct: int, t: int)
    requires pct != 0 && JitterWindow(after, pct) > 0
    requires 2 * JitterWindow(after, pct) <= RandMax + 1
    requires base - JitterWindow(after, pct) <= t < base + JitterWindow(after, pct)
    ensures exists rnd: RandValue :: FireTime(base, after, pct, rnd) == t
  {
    var j := JitterWindow(after, pct);
    var rnd: RandValue := t - base + j;
    assert FireTime(base, after, pct, rnd) == base + CRem(rnd, 2 * j) - j;
  }
}
