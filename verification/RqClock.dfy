/** Clock accounting of a run queue (assg4/core.c, update_rq_clock and update_rq_clock_task). */
module RqClock {
  import opened Basics
  import opened Bandwidth

  const S64_LIMIT: int := 0x8000_0000_0000_0000

  /** Nanoseconds below 2^63, some 292 years. */
  type Ns = x: int | 0 <= x < S64_LIMIT

  type Word = x: int | 0 <= x < U64
  type Long = x: int | -S64_LIMIT <= x < S64_LIMIT

  /** The difference of two u64 values, kept in an s64. */
  function Diff(a: Word, b: Word): Long {
    if a - b >= S64_LIMIT then a - b - U64 else if a - b < -S64_LIMIT then a - b + U64 else a - b
  }

  /** A u64 value increased by an s64. */
  function Plus(a: Word, d: Long): Word {
    if a + d >= U64 then a + d - U64 else if a + d < 0 then a + d + U64 else a + d
  }

  /** The difference of two s64 values. */
  function Minus(a: Long, b: Long): Long {
    if a - b >= S64_LIMIT then a - b - U64 else if a - b < -S64_LIMIT then a - b + U64 else a - b
  }

  /** All three agree with the plain numbers modulo 2^64, in two's complement. */
  lemma WordsWrap(a: Word, b: Word, c: Long, d: Long)
    ensures (Diff(a, b) - (a - b)) % U64 == 0 && (Plus(a, d) - (a + d)) % U64 == 0 && (Minus(c, d) - (c - d)) % U64 == 0
  {
  }

  datatype Rq = Rq(clock: Word, clockTask: Word, prevIrq: Word, prevSteal: Word)

  /**
    What one update reads: skip_clock_update, the CPU clock, the irq and steal clocks, and whether irq
    time accounting is configured and steal accounting enabled.
   */
  datatype Reading = Reading(skip: int, now: Ns, irq: Ns, steal: Ns, irqOn: bool, stealOn: bool)

  function Min(a: int, b: int): int {
    if a > b then b else a
  }

  /** update_rq_clock_task */
  function UpdateTask(r: Rq, delta: Long, x: Reading): Rq {
    var irqDelta: Long := if x.irqOn then Min(Diff(x.irq, r.prevIrq), delta) else 0;
    var left := Minus(delta, irqDelta);
    var steal: Long := if x.stealOn then Min(Diff(x.steal, r.prevSteal), left) else 0;
    Rq(r.clock, Plus(r.clockTask, Minus(left, steal)), Plus(r.prevIrq, irqDelta), Plus(r.prevSteal, steal))
  }

  /** update_rq_clock */
  function Update(r: Rq, x: Reading): Rq {
    var delta := Diff(x.now, r.clock);
    if x.skip > 0 || delta < 0 then r else UpdateTask(r.(clock := Plus(r.clock, delta)), delta, x)
  }

  /** The clock is split without rest into task time, irq time and steal time. */
  predicate Balanced(r: Rq) {
    r.clock < S64_LIMIT && r.clockTask + r.prevIrq + r.prevSteal == r.clock
  }

  /** The part of the increase that is irq time, and the part of the rest that is stolen. */
  function IrqPart(r: Rq, delta: int, x: Reading): int {
    if x.irqOn then Min(x.irq - r.prevIrq, delta) else 0
  }

  function StealPart(r: Rq, delta: int, x: Reading): int {
    if x.stealOn then Min(x.steal - r.prevSteal, delta - IrqPart(r, delta, x)) else 0
  }

  predicate Advances(r: Rq, x: Reading) {
    x.skip <= 0 && x.now >= r.clock
  }

  /** What an update that is not skipped does, in plain numbers: nothing wraps. */
  lemma UpdateIs(r: Rq, x: Reading)
    requires Balanced(r) && Advances(r, x)
    ensures var delta, r' := x.now - r.clock, Update(r, x);
      && r'.clock == x.now
      && r'.clockTask == r.clockTask + delta - IrqPart(r, delta, x) - StealPart(r, delta, x)
      && r'.prevIrq == r.prevIrq + IrqPart(r, delta, x)
      && r'.prevSteal == r.prevSteal + StealPart(r, delta, x)
  {
  }

  lemma SkippedIs(r: Rq, x: Reading)
    requires Balanced(r) && !Advances(r, x)
    ensures Update(r, x) == r
  {
  }

  /**
    An update brings clock to the CPU's clock. The irq stamp, if irq time is accounted, comes as close to its
    clock as the increase allows, then the steal stamp as what is left of it does; the rest is task time.
   */
  lemma UpdateDistributes(r: Rq, x: Reading)
    requires Balanced(r)
    ensures var r' := Update(r, x);
      if x.skip > 0 || x.now < r.clock then r' == r
      else
        var rest := x.now - r.clock - (r'.prevIrq - r.prevIrq);
        && r'.clock == x.now
        && r'.prevIrq == (if !x.irqOn then r.prevIrq
                          else if x.irq - r.prevIrq <= x.now - r.clock then x.irq else r.prevIrq + x.now - r.clock)
        && r'.prevSteal == (if !x.stealOn then r.prevSteal
                            else if x.steal - r.prevSteal <= rest then x.steal else r.prevSteal + rest)
        && r'.clockTask == r.clockTask + rest - (r'.prevSteal - r.prevSteal)
  {
    if Advances(r, x) { UpdateIs(r, x); } else { SkippedIs(r, x); }
  }

  /** One update: the increase of clock is distributed exactly, and neither clock goes back. */
  lemma UpdateConserves(r: Rq, x: Reading)
    requires Balanced(r)
    ensures var r' := Update(r, x);
      && Balanced(r') && r'.clock >= r.clock && r'.clockTask >= r.clockTask
      && (r'.clockTask - r.clockTask) + (r'.prevIrq - r.prevIrq) + (r'.prevSteal - r.prevSteal) == r'.clock - r.clock
  {
    if Advances(r, x) { UpdateIs(r, x); } else { SkippedIs(r, x); }
  }

  /** The clocks do not read less than what has been accounted to them. */
  predicate Behind(r: Rq, irq: Ns, steal: Ns) {
    r.prevIrq <= irq && r.prevSteal <= steal
  }

  /**
    The stamps never pass their clocks, and what does not fit is deferred: an irq stamp that lags took
    the whole increase, and a steal stamp that lags left nothing of it for tasks.
   */
  lemma ExcessIsDeferred(r: Rq, x: Reading)
    requires Balanced(r) && Behind(r, x.irq, x.steal)
    ensures var r' := Update(r, x);
      && Behind(r', x.irq, x.steal) && r'.prevIrq >= r.prevIrq && r'.prevSteal >= r.prevSteal
      && (Advances(r, x) && x.irqOn && r'.prevIrq < x.irq ==>
          r'.clockTask == r.clockTask && r'.prevSteal == r.prevSteal && r'.prevIrq - r.prevIrq == r'.clock - r.clock)
      && (Advances(r, x) && x.stealOn && r'.prevSteal < x.steal ==> r'.clockTask == r.clockTask)
  {
    if Advances(r, x) { UpdateIs(r, x); } else { SkippedIs(r, x); }
  }

  // ---------------------------------------------------------------- runs

  /** The queue and the last readings of its irq and steal clocks. */
  datatype State = State(r: Rq, irq: Ns, steal: Ns)

  ghost predicate Init(s: State) {
    s.r == Rq(0, 0, 0, 0)
  }

  /** An update, with irq and steal clocks that do not go back. */
  ghost predicate Next(s: State, s': State) {
    exists x: Reading :: Follows(s, x) && s' == State(Update(s.r, x), x.irq, x.steal)
  }

  predicate Follows(s: State, x: Reading) {
    s.irq <= x.irq && s.steal <= x.steal
  }

  predicate Inv(s: State) {
    Balanced(s.r) && Behind(s.r, s.irq, s.steal)
  }

  predicate NoClockGoesBack(s: State, s': State) {
    && s.r.clock <= s'.r.clock && s.r.clockTask <= s'.r.clockTask
    && s.r.prevIrq <= s'.r.prevIrq && s.r.prevSteal <= s'.r.prevSteal
  }

  lemma StepKeeps(s: State, s': State)
    requires Inv(s) && Next(s, s')
    ensures Inv(s') && NoClockGoesBack(s, s')
  {
    var x: Reading :| Follows(s, x) && s' == State(Update(s.r, x), x.irq, x.steal);
    UpdateConserves(s.r, x);
    ExcessIsDeferred(s.r, x);
  }

  lemma RunKeeps(r: seq<State>, k: nat)
    requires IsRun(Init, Next, r) && k < |r|
    ensures Inv(r[k])
  {
    forall s: State, s': State | Inv(s) && Next(s, s') ensures Inv(s') { StepKeeps(s, s'); }
    RunInvariant(Init, Next, s => Inv(s), r, k);
  }

  /** In every state of every run all time is accounted for once, and no stamp has passed its clock. */
  lemma TimeIsAccountedOnce(r: seq<State>, k: nat)
    requires IsRun(Init, Next, r) && k < |r|
    ensures r[k].r.clockTask + r[k].r.prevIrq + r[k].r.prevSteal == r[k].r.clock
    ensures r[k].r.prevIrq <= r[k].irq && r[k].r.prevSteal <= r[k].steal
  {
    RunKeeps(r, k);
  }

  /** All four clocks are monotone over every run. */
  lemma {:induction false} ClocksAreMonotone(r: seq<State>, j: nat, k: nat)
    requires IsRun(Init, Next, r) && j <= k < |r|
    ensures NoClockGoesBack(r[j], r[k])
    decreases k
  {
    if j == k {
    } else {
      ClocksAreMonotone(r, j, k - 1);
      RunKeeps(r, k - 1);
      assert Next(r[k - 1], r[k - 1 + 1]);
      StepKeeps(r[k - 1], r[k]);
    }
  }

  /**
    Between two states of a run that have caught up with their clocks, tasks were given exactly the
    time that was neither irq time nor stolen, however often the updates in between were clamped.
   */
  lemma NothingIsLost(r: seq<State>, j: nat, k: nat)
    requires IsRun(Init, Next, r) && j <= k < |r|
    requires r[j].r.prevIrq == r[j].irq && r[j].r.prevSteal == r[j].steal
    requires r[k].r.prevIrq == r[k].irq && r[k].r.prevSteal == r[k].steal
    ensures r[k].r.clockTask - r[j].r.clockTask ==
      (r[k].r.clock - r[j].r.clock) - (r[k].irq - r[j].irq) - (r[k].steal - r[j].steal)
  {
    TimeIsAccountedOnce(r, j);
    TimeIsAccountedOnce(r, k);
  }

  // ---------------------------------------------------------------- the run queue, updated in place

  class RunQueue {
    var clock: Word
    var clockTask: Word
    var prevIrqTime: Word
    var prevStealTime: Word
    var skipClockUpdate: int

    function View(): Rq
      reads this
    {
      Rq(clock, clockTask, prevIrqTime, prevStealTime)
    }

    constructor ()
      ensures View() == Rq(0, 0, 0, 0) && skipClockUpdate == 0
    {
      clock, clockTask, prevIrqTime, prevStealTime, skipClockUpdate := 0, 0, 0, 0, 0;
    }

    method UpdateRqClockTask(delta0: Long, irq: Ns, steal0: Ns, irqOn: bool, stealOn: bool)
      modifies this`clockTask, this`prevIrqTime, this`prevStealTime
      ensures View() == UpdateTask(old(View()), delta0, Reading(0, 0, irq, steal0, irqOn, stealOn))
    {
      var delta := delta0;
      if irqOn {
        var irqDelta := Diff(irq, prevIrqTime);
        if irqDelta > delta { irqDelta := delta; }
        prevIrqTime := Plus(prevIrqTime, irqDelta);
        delta := Minus(delta, irqDelta);
      }
      if stealOn {
        var steal := Diff(steal0, prevStealTime);
        if steal > delta { steal := delta; }
        prevStealTime := Plus(prevStealTime, steal);
        delta := Minus(delta, steal);
      }
      clockTask := Plus(clockTask, delta);
    }

    method UpdateRqClock(now: Ns, irq: Ns, steal: Ns, irqOn: bool, stealOn: bool)
      modifies this`clock, this`clockTask, this`prevIrqTime, this`prevStealTime
      ensures View() == Update(old(View()), Reading(skipClockUpdate, now, irq, steal, irqOn, stealOn))
    {
      if skipClockUpdate > 0 { return; }
      var delta := Diff(now, clock);
      if delta < 0 { return; }
      clock := Plus(clock, delta);
      UpdateRqClockTask(delta, irq, steal, irqOn, stealOn);
    }
  }
}
