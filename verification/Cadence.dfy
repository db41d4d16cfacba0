/** Multi-rate schedules: which clock values make a stage due, and how often. */
module Cadence {
  const UINT64: nat := 0x1_0000_0000_0000_0000

  /** A stage of a schedule runs in cadence `num` of every `den` clocks; a cadence without
      a positive denominator runs always. A negative numerator is converted to a huge
      unsigned one. */
  predicate EveryDue(clock: nat, num: int, den: int) {
    den <= 0 || clock % den < (if num >= 0 then num else UINT64 + num)
  }

  /** A stage with a period is due at its phase; the sum is taken in 64 bits. */
  predicate PeriodDue(tick: nat, period: nat, phase: nat) {
    period > 0 && ((tick + period - phase % period) % UINT64) % period == 0
  }

  /** Number of the n values from s on for which f holds. */
  ghost function Count(f: nat -> bool, s: nat, n: nat): nat {
    if n == 0 then 0 else Count(f, s, n - 1) + if f(s + n - 1) then 1 else 0
  }

  lemma {:induction false} CountShift(f: nat -> bool, s: nat, n: nat)
    ensures Count(f, s, n + 1) == (if f(s) then 1 else 0) + Count(f, s + 1, n)
  {
    if n > 0 {
      CountShift(f, s, n - 1);
    }
  }

  /** A periodic condition holds equally often in every window of one period. */
  lemma {:induction false} PeriodicCount(f: nat -> bool, p: nat, s: nat)
    requires forall t: nat :: f(t + p) == f(t)
    ensures Count(f, s, p) == Count(f, 0, p)
  {
    if s > 0 {
      PeriodicCount(f, p, s - 1);
      CountShift(f, s - 1, p);
      assert f(s - 1 + p) == f(s - 1);
    }
  }

  lemma {:induction false} CountBelow(f: nat -> bool, n: nat, m: nat)
    requires forall t: nat :: t < n ==> (f(t) <==> t < m)
    ensures Count(f, 0, n) == if n < m then n else m
  {
    if n > 0 {
      CountBelow(f, n - 1, m);
    }
  }

  lemma {:induction false} CountAt(f: nat -> bool, n: nat, m: nat)
    requires forall t: nat :: t < n ==> (f(t) <==> t == m)
    ensures Count(f, 0, n) == if m < n then 1 else 0
  {
    if n > 0 {
      CountAt(f, n - 1, m);
    }
  }

  /** A multiple of p strictly between -p and p is zero. */
  lemma SmallMultiple(k: int, p: int, x: int)
    requires -p < x < p && x == k * p
    ensures x == 0
  {
    var above, below := k >= 1, k <= -1;
    assert above ==> k * p >= p by {
      assert above ==> (k - 1) * p >= 0;
    }
    assert below ==> k * p <= -p by {
      assert below ==> (-1 - k) * p >= 0;
    }
  }

  /** Quotient and remainder are unique. */
  lemma ModIs(a: int, p: int, q: int, r: int)
    requires 0 <= r < p && a == q * p + r
    ensures a % p == r
  {
    var k := q - a / p;
    assert a == (a / p) * p + a % p;
    assert k * p == q * p - (a / p) * p;
    SmallMultiple(k, p, a % p - r);
  }

  lemma ModShift(t: nat, p: nat)
    requires p > 0
    ensures (t + p) % p == t % p
  {
    assert t == (t / p) * p + t % p;
    assert (t / p + 1) * p == (t / p) * p + p;
    ModIs(t + p, p, t / p + 1, t % p);
  }

  /** A stage with cadence num / den runs in exactly num of any den consecutive clocks. */
  lemma EveryIsFair(num: nat, den: nat, s: nat)
    requires 0 < den && num <= den
    ensures Count((t: nat) => EveryDue(t, num, den), s, den) == num
  {
    var f := (t: nat) => EveryDue(t, num, den);
    forall t: nat ensures f(t + den) == f(t) {
      ModShift(t, den);
    }
    PeriodicCount(f, den, s);
    forall t: nat | t < den ensures f(t) <==> t < num {
      ModIs(t, den, 0, t);
    }
    CountBelow(f, den, num);
  }

  /** Within each cycle of den clocks it runs in the first num, which is all of them if num is
      at least den or negative; without a positive den it always runs. */
  lemma EveryStartsCycles(num: int, den: int, cycle: nat, r: nat)
    requires den < 0x8000_0000 && num >= -0x8000_0000
    ensures 0 < den && r < den ==> (EveryDue(cycle * den + r, num, den) <==> num < 0 || r < num)
    ensures den <= 0 ==> EveryDue(r, num, den)
  {
    if 0 < den && r < den {
      ModIs(cycle * den + r, den, cycle, r);
    }
  }

  /** While the sum does not wrap, a stage is due exactly when the tick is congruent to
      its phase modulo its period. */
  lemma PeriodDueExact(tick: nat, period: nat, phase: nat)
    requires period > 0 && tick + period < UINT64
    ensures PeriodDue(tick, period, phase) <==> tick % period == phase % period
  {
    var r, t, q := phase % period, tick % period, tick / period;
    var sum := tick + period - r;
    assert sum % UINT64 == sum;
    assert tick == q * period + t;
    if t >= r {
      assert (q + 1) * period == q * period + period;
      ModIs(sum, period, q + 1, t - r);
    } else {
      ModIs(sum, period, q, t - r + period);
    }
  }

  /** So in every window of one period that stays below the wrap, it is due exactly once. */
  lemma PeriodIsOnce(period: nat, phase: nat, s: nat)
    requires period > 0 && s + 2 * period <= UINT64
    ensures Count((t: nat) => PeriodDue(t, period, phase), s, period) == 1
  {
    var f := (t: nat) => PeriodDue(t, period, phase);
    var g := (t: nat) => t % period == phase % period;
    SameCount(f, g, s, period, phase, period);
    forall t: nat ensures g(t + period) == g(t) {
      ModShift(t, period);
    }
    PeriodicCount(g, period, s);
    forall t: nat | t < period ensures g(t) <==> t == phase % period {
      ModIs(t, period, 0, t);
    }
    CountAt(g, period, phase % period);
  }

  lemma {:induction false} SameCount(f: nat -> bool, g: nat -> bool, s: nat, n: nat, phase: nat, period: nat)
    requires period > 0 && n <= period && s + 2 * period <= UINT64
    requires f == ((t: nat) => PeriodDue(t, period, phase)) && g == ((t: nat) => t % period == phase % period)
    ensures Count(f, s, n) == Count(g, s, n)
  {
    if n > 0 {
      SameCount(f, g, s, n - 1, phase, period);
      PeriodDueExact(s + n - 1, period, phase);
    }
  }
}
