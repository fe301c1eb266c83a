/** Fixed-point bandwidth ratios (assg4/core.c, to_ratio) in 64-bit unsigned arithmetic. */
module Bandwidth {

  const U64: nat := 0x1_0000_0000_0000_0000
  const RUNTIME_INF: nat := U64 - 1
  const BW_UNIT: nat := 0x10_0000       // 1 << 20
  const EXACT_LIMIT: nat := 0x1000_0000_0000  // 1 << 44
  const NSEC_PER_USEC: nat := 1000
  const EPERM: int := -1
  const EINVAL: int := -22
  const EBUSY: int := -16
  const ENOMEM: int := -12

  /** to_ratio: the shift of `runtime` wraps at 64 bits. */
  function ToRatio(period: nat, runtime: nat): nat {
    if runtime == RUNTIME_INF then BW_UNIT
    else if period == 0 then 0
    else runtime * BW_UNIT % U64 / period
  }

  /** The ratio as it would be without wrap-around. */
  function TrueRatio(period: nat, runtime: nat): nat {
    if runtime == RUNTIME_INF then BW_UNIT
    else if period == 0 then 0
    else runtime * BW_UNIT / period
  }

  lemma ExactBelow(period: nat, runtime: nat)
    requires runtime == RUNTIME_INF || runtime < EXACT_LIMIT
    ensures ToRatio(period, runtime) == TrueRatio(period, runtime)
  {
  }

  /** A runtime that fits its period never has a ratio above one, wrapped or not. */
  lemma RatioAtMostOne(period: nat, runtime: nat)
    requires runtime <= period || runtime == RUNTIME_INF
    ensures ToRatio(period, runtime) <= BW_UNIT
  {
    if runtime != RUNTIME_INF && period != 0 {
      var x := runtime * BW_UNIT % U64;
      assert x <= runtime * BW_UNIT <= BW_UNIT * period;
      DivAtMost(x, period, BW_UNIT);
    }
  }

  lemma ZeroRatio(period: nat)
    ensures ToRatio(period, 0) == 0
  {
    if period != 0 { DivAtMost(0, period, 0); }
  }

  lemma MulCancel(a: int, b: int, p: int)
    requires p > 0
    ensures a * p <= b * p <==> a <= b
    ensures a * p < b * p <==> a < b
  {
    assert a * p - b * p == (a - b) * p;
  }

  lemma DivAtMost(x: nat, p: nat, q: nat)
    requires p > 0 && x <= q * p
    ensures x / p <= q
  {
    assert x / p * p <= x;
    MulCancel(x / p, q, p);
  }

  /** The ratio is the true quotient exactly when the runtime is below 2^44 ns (about 4.9 hours). */
  lemma RatioIsExactIff(period: nat, runtime: nat)
    requires 0 < period < U64 && runtime < RUNTIME_INF
    ensures ToRatio(period, runtime) == TrueRatio(period, runtime) <==> runtime < EXACT_LIMIT
  {
    var full := runtime * BW_UNIT;
    if runtime >= EXACT_LIMIT {
      assert full >= U64;
      var x, k := full % U64, full / U64;
      assert full == x + k * U64 && k >= 1;
      assert full >= x + U64;
      QuotientGrows(x, full, period);
    }
  }

  lemma QuotientGrows(x: nat, y: nat, p: nat)
    requires p > 0 && y >= x + p
    ensures y / p > x / p
  {
    assert x / p * p <= x && y / p * p > y - p;
    MulCancel(x / p, y / p, p);
  }

  /** Beyond that bound a group that asks for the whole CPU can be accounted as asking for nothing. */
  lemma WrappedRatioVanishes()
    ensures ToRatio(EXACT_LIMIT, EXACT_LIMIT) == 0
  {
  }

  /** A limit written in microseconds, as the controls convert it; a negative value means no limit. */
  function UsToNs(us: int): nat {
    if us < 0 then RUNTIME_INF else us * NSEC_PER_USEC % U64
  }

  /** No number of microseconds is taken for "no limit", and only those whose nanoseconds wrap are altered. */
  lemma UsReadsBack(us: nat)
    ensures UsToNs(us) != RUNTIME_INF
    ensures UsToNs(us) / NSEC_PER_USEC == us <==> us * NSEC_PER_USEC < U64
  {
    var ns := us * NSEC_PER_USEC;
    assert ns % 8 == 0;
  }

  // ---------------------------------------------------------------- the global limits

  /** sysctl_sched_rt_period is an unsigned int and sysctl_sched_rt_runtime an int, both in microseconds. */
  type SysctlPeriod = x: int | 0 <= x < 0x1_0000_0000
  type SysctlRuntime = x: int | -0x8000_0000 <= x < 0x8000_0000

  /** The value of a C int once it is compared with an unsigned one. */
  function AsUnsigned(x: SysctlRuntime): SysctlPeriod {
    if x < 0 then x + 0x1_0000_0000 else x
  }

  /** sched_rt_global_validate: -1 stands for RUNTIME_INF; the second comparison is unsigned. */
  predicate GlobalValid(period: SysctlPeriod, runtime: SysctlRuntime) {
    period > 0 && (runtime == -1 || AsUnsigned(runtime) <= period)
  }

  /** global_rt_period() */
  function GlobalPeriod(period: SysctlPeriod): nat {
    period * NSEC_PER_USEC % U64
  }

  /** global_rt_runtime(): a negative sysctl means no limit. */
  function GlobalRuntime(runtime: SysctlRuntime): nat {
    if runtime < 0 then RUNTIME_INF else runtime * NSEC_PER_USEC
  }

  function GlobalRatio(period: SysctlPeriod, runtime: SysctlRuntime): nat {
    ToRatio(GlobalPeriod(period), GlobalRuntime(runtime))
  }

  lemma DivCancel(x: nat, p: nat, c: nat)
    requires p > 0 && c > 0
    ensures p * c > 0 && x * c / (p * c) == x / p
  {
    var q := x / p;
    assert x * c == q * (p * c) + x % p * c && 0 <= x % p * c < p * c by {
      assert x == q * p + x % p;
      MulCancel(x % p, p, c);
    }
    DivIs(x * c, p * c, q, x % p * c);
  }

  lemma DivIs(x: nat, p: nat, q: nat, r: nat)
    requires p > 0 && x == q * p + r && r < p
    ensures x / p == q
  {
    MulCancel(x / p, q + 1, p);
    MulCancel(q, x / p + 1, p);
  }

  /** A valid write in plain numbers: its runtime is -1 or, read as unsigned, at most its non-zero period. */
  lemma GlobalValidIff(period: SysctlPeriod, runtime: SysctlRuntime)
    ensures GlobalValid(period, runtime) <==>
      && period >= 1
      && (runtime == -1 || (runtime >= 0 && runtime <= period) || (runtime < -1 && runtime + 0x1_0000_0000 <= period))
  {
  }

  /** The global ratio is the true quotient of the two values written: nothing wraps. */
  lemma GlobalRatioIs(period: SysctlPeriod, runtime: SysctlRuntime)
    requires period > 0
    ensures GlobalRatio(period, runtime) == if runtime < 0 then 0x10_0000 else runtime * 0x10_0000 / period
  {
    if runtime >= 0 {
      assert GlobalRatio(period, runtime) == runtime * BW_UNIT * NSEC_PER_USEC / (period * NSEC_PER_USEC);
      DivCancel(runtime * BW_UNIT, period, NSEC_PER_USEC);
    }
  }

  lemma GlobalRatioAtMostOne(period: SysctlPeriod, runtime: SysctlRuntime)
    requires GlobalValid(period, runtime)
    ensures GlobalRatio(period, runtime) <= BW_UNIT
  {
    RatioAtMostOne(GlobalPeriod(period), GlobalRuntime(runtime));
  }
}
