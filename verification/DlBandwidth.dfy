/** Admission of SCHED_DEADLINE bandwidth in one root domain (assg4/core.c). */
module DlBandwidth {
  import opened Basics
  import opened Bandwidth

  const NO_LIMIT: nat := U64 - 1         // dl_b->bw == -1
  const MAX_TASKS: nat := 0x40_0000      // PID_MAX_LIMIT
  const MAX_CPUS: nat := 0x1_0000
  const DL_SCALE_MIN: nat := 1024        // 1 << DL_SCALE
  const MSB: nat := 0x8000_0000_0000_0000

  /**
    `dl` is dl_policy(p->policy), `dlPrio` is dl_prio(p->prio), which also says that the task is in
    the deadline class, `runtime`, `period` and `bw` are those of p->dl, and `waiter` is the priority of
    the top rt_mutex waiter.
   */
  datatype Task = Task(dl: bool, dlPrio: bool, runtime: nat, period: nat, bw: nat, waiter: Option<Prio>)

  type Prio = x: int | -1 <= x < 140      // p->prio; -1 is the deadline class
  type RtPriority = x: int | 0 <= x < 100 // sched_priority

  /** The dl_bw of the domain, its tasks (one slot per pid) and its active CPUs. */
  datatype Domain = Domain(bw: nat, total: nat, tasks: seq<Option<Task>>, active: set<nat>, reverting: set<nat>)

  ghost predicate Wf(s: Domain) {
    && (s.bw <= BW_UNIT || s.bw == NO_LIMIT) && s.total < U64
    && |s.tasks| <= MAX_TASKS
    && (forall i :: 0 <= i < |s.tasks| && s.tasks[i].Some? ==> s.tasks[i].value.bw <= BW_UNIT)
    && s.active !! s.reverting && |s.active + s.reverting| <= MAX_CPUS
  }

  type State = s: Domain | Wf(s) ghost witness Domain(NO_LIMIT, 0, [], {}, {})

  /** The part of sched_attr that matters here; `priority` is sched_priority. */
  datatype Attr = Attr(dl: bool, priority: RtPriority, runtime: nat, deadline: nat, period: nat)

  // ---------------------------------------------------------------- the code

  /** __checkparam_dl */
  predicate CheckParam(a: Attr) {
    && a.deadline != 0
    && a.runtime >= DL_SCALE_MIN
    && a.deadline < MSB && a.period < MSB
    && (a.period == 0 || a.period >= a.deadline) && a.deadline >= a.runtime
  }

  function PeriodOf(a: Attr): nat {
    if a.period != 0 then a.period else a.deadline
  }

  function NewBw(a: Attr): nat {
    if a.dl then ToRatio(PeriodOf(a), a.runtime) else 0
  }

  lemma NewBwAtMostOne(a: Attr)
    requires a.dl ==> CheckParam(a)
    ensures NewBw(a) <= BW_UNIT
  {
    if a.dl { RatioAtMostOne(PeriodOf(a), a.runtime); }
  }

  /** __dl_overflow, in unsigned 64-bit arithmetic */
  predicate Overflows(bw: nat, total: nat, cpus: nat, oldBw: nat, newBw: nat) {
    bw != NO_LIMIT && bw * cpus % U64 < (total - oldBw + newBw) % U64
  }

  /** dl_overflow: the error and the new total_bw. */
  function DlOverflow(s: Domain, t: Task, a: Attr): (int, nat) {
    Grant(s, t, a.dl, NewBw(a))
  }

  function Grant(s: Domain, t: Task, dl: bool, newBw: nat): (int, nat) {
    var cpus := |s.active|;
    if newBw == t.bw then (0, s.total)
    else if dl && !t.dl && !Overflows(s.bw, s.total, cpus, 0, newBw) then (0, (s.total + newBw) % U64)
    else if dl && t.dl && !Overflows(s.bw, s.total, cpus, t.bw, newBw) then
      (0, ((s.total - t.bw) % U64 + newBw) % U64)
    else if !dl && t.dl then (0, (s.total - t.bw) % U64)
    else (-1, s.total)
  }

  /** rt_mutex_check_prio: a waiter keeps the task at least as urgent as its new parameters would. */
  predicate CheckPrio(t: Task, newPrio: Prio) {
    t.waiter.Some? && t.waiter.value <= newPrio
  }

  function NewPrio(a: Attr): Prio {
    if a.dl then -1 else 99 - a.priority
  }

  /** __setscheduler_params */
  function WithParams(t: Task, a: Attr): Task {
    if a.dl then t.(dl := true, runtime := a.runtime, period := PeriodOf(a), bw := NewBw(a)) else t.(dl := false)
  }

  /** A change of class out of the deadline class clears the deadline parameters. */
  function Reclassed(t: Task, dlPrio: bool): Task {
    if t.dlPrio && !dlPrio then t.(dlPrio := false, runtime := 0, period := 0, bw := 0) else t.(dlPrio := dlPrio)
  }

  /** The task after __sched_setscheduler has accepted the change. */
  function Rescheduled(t: Task, a: Attr): Task {
    if CheckPrio(t, NewPrio(a)) then WithParams(t, a) else Reclassed(WithParams(t, a), a.dl)
  }

  datatype Op =
    | Set(i: nat, a: Attr, allowed: bool, same: bool)
    | Boost(i: nat, waiter: Option<Prio>)
    | Fork(i: nat)
    | Die(i: nat)
    | Normalize(i: nat)
    | Limits(period: SysctlPeriod, runtime: SysctlRuntime, rtErr: bool)
    | DownPrepare(cpu: nat)
    | DownFailed(cpu: nat)
    | Up(cpu: nat)

  predicate IsTask(s: Domain, i: nat) {
    i < |s.tasks| && s.tasks[i].Some?
  }

  /** Whether __sched_setscheduler gets as far as dl_overflow and is admitted. */
  predicate Admitted(s: Domain, t: Task, a: Attr) {
    (a.dl || t.dlPrio) ==> DlOverflow(s, t, a).0 == 0
  }

  predicate Enabled(s: Domain, op: Op) {
    match op
    case Set(i, a, allowed, same) => IsTask(s, i)
    case Boost(i, waiter) => IsTask(s, i)
    case Fork(i) => i < |s.tasks| && s.tasks[i].None?
    case Die(i) => IsTask(s, i)
    case Normalize(i) => IsTask(s, i)
    case Limits(period, runtime, rtErr) => true
    case DownPrepare(cpu) => cpu in s.active
    case DownFailed(cpu) => cpu in s.reverting
    case Up(cpu) => cpu !in s.active && cpu !in s.reverting && |s.active + s.reverting| < MAX_CPUS
  }

  function Put(s: Domain, i: nat, t: Option<Task>): Domain
    requires i < |s.tasks|
  {
    s.(tasks := s.tasks[i := t])
  }

  const FORKED: Task := Task(false, false, 0, 0, 0, None)

  /** __sched_setscheduler from its parameter check on; `allowed` is the verdict of the other checks. */
  function SetScheduler(s: Domain, i: nat, a: Attr, allowed: bool, same: bool): (int, Domain)
    requires IsTask(s, i)
  {
    var t := s.tasks[i].value;
    if a.dl && !CheckParam(a) then (EINVAL, s)
    else if !allowed then (EPERM, s)
    else if !a.dl && !t.dl && same then (0, s)
    else if !Admitted(s, t, a) then (EBUSY, s)
    else
      var total := if a.dl || t.dlPrio then DlOverflow(s, t, a).1 else s.total;
      (0, Put(s, i, Some(Rescheduled(t, a))).(total := total))
  }

  /** task_dead of the deadline class returns the bandwidth. */
  function TaskDead(s: Domain, i: nat): Domain
    requires IsTask(s, i)
  {
    var t := s.tasks[i].value;
    Put(s, i, None).(total := if t.dlPrio then (s.total - t.bw) % U64 else s.total)
  }

  /**
    normalize_task, for a task at deadline priority. normalize_rt_tasks goes by p->prio: it normalizes a task
    at a real-time priority too, which holds no bandwidth and has no deadline policy, and only renices the others,
    even one that has the deadline policy but has not got its priority yet.
   */
  function NormalizeTask(t: Task): Task {
    Reclassed(WithParams(t, Attr(false, 0, 0, 0, 0)), false)
  }

  predicate LimitsAccepted(s: Domain, period: SysctlPeriod, runtime: SysctlRuntime, rtErr: bool) {
    GlobalValid(period, runtime) && !rtErr && GlobalRatio(period, runtime) >= s.total
  }

  /** sched_rt_handler with sched_dl_global_constraints and sched_dl_do_global */
  function SetLimits(s: Domain, period: SysctlPeriod, runtime: SysctlRuntime, rtErr: bool): Domain {
    if !LimitsAccepted(s, period, runtime, rtErr) then s
    else s.(bw := if runtime < 0 then NO_LIMIT else GlobalRatio(period, runtime))
  }

  /** sched_cpu_inactive: the CPU is inactive at once, and waits to be made active again on -EBUSY. */
  function PrepareDown(s: Domain, cpu: nat): Domain {
    var active := s.active - {cpu};
    s.(active := active, reverting := s.reverting + if Overflows(s.bw, s.total, |active|, 0, 0) then {cpu} else {})
  }

  function Do(s: Domain, op: Op): Domain
    requires Enabled(s, op)
  {
    match op
    case Set(i, a, allowed, same) => SetScheduler(s, i, a, allowed, same).1
    case Boost(i, waiter) =>
      var t := s.tasks[i].value;
      Put(s, i, Some(Reclassed(t, t.dl || waiter == Some(-1)).(waiter := waiter)))
    case Fork(i) => Put(s, i, Some(FORKED))
    case Die(i) => TaskDead(s, i)
    case Normalize(i) =>
      if s.tasks[i].value.dlPrio then Put(s, i, Some(NormalizeTask(s.tasks[i].value))) else s
    case Limits(period, runtime, rtErr) => SetLimits(s, period, runtime, rtErr)
    case DownPrepare(cpu) => PrepareDown(s, cpu)
    case DownFailed(cpu) => s.(active := s.active + {cpu}, reverting := s.reverting - {cpu})
    case Up(cpu) => s.(active := s.active + {cpu})
  }

  // ---------------------------------------------------------------- what it promises

  function Share(t: Option<Task>): nat {
    if t.Some? && t.value.dl then t.value.bw else 0
  }

  /** The bandwidth of the tasks whose policy is SCHED_DEADLINE. */
  function SumBw(ts: seq<Option<Task>>): nat {
    if ts == [] then 0 else SumBw(ts[..|ts| - 1]) + Share(ts[|ts| - 1])
  }

  predicate Conserved(s: Domain) {
    s.total == SumBw(s.tasks)
  }

  /** CPUs that are active or about to be made active again; at least one is always assumed to matter. */
  function Cpus(s: Domain): nat {
    if s.active + s.reverting == {} then 1 else |s.active + s.reverting|
  }

  predicate Bounded(s: Domain) {
    s.bw == NO_LIMIT || s.total <= s.bw * Cpus(s)
  }

  /** A task that has neither the policy nor the class carries no bandwidth. */
  ghost predicate Tidy(s: Domain) {
    forall i :: 0 <= i < |s.tasks| && s.tasks[i].Some? ==> TidyTask(s.tasks[i].value)
  }

  predicate TidyTask(t: Task) {
    && (!t.dl && !t.dlPrio ==> t.bw == 0)
    && t.bw <= BW_UNIT && HasItsRatio(t)
  }

  predicate HasItsRatio(t: Task) {
    t.bw == ToRatio(t.period, t.runtime)
  }

  ghost predicate Inv(s: Domain) {
    Wf(s) && Conserved(s) && Bounded(s) && Tidy(s)
  }

  /** What the death of t takes off the total. */
  function Returned(t: Task): nat {
    if t.dlPrio then t.bw else 0
  }

  /**
    The steps that lose track of bandwidth. A boosted task that left the policy, and so still carries
    its old bandwidth, comes back with the same one; a task of the policy that is not in the class,
    because it was normalized while boosted and then entered the policy, leaves it; either of the two
    dies; a task of the policy is normalized at its deadline priority.
   */
  predicate Leaks(s: Domain, op: Op)
    requires Enabled(s, op)
  {
    match op
    case Set(i, a, allowed, same) =>
      var t := s.tasks[i].value;
      allowed && if a.dl then CheckParam(a) && !t.dl && t.bw == NewBw(a) != 0 else t.dl && !t.dlPrio && t.bw != 0
    case Die(i) => Share(s.tasks[i]) != Returned(s.tasks[i].value)
    case Normalize(i) => s.tasks[i].value.dlPrio && Share(s.tasks[i]) != 0
    case _ => false
  }

  // ---------------------------------------------------------------- sums

  lemma {:induction false} SumUpdate(ts: seq<Option<Task>>, i: nat, t: Option<Task>)
    requires i < |ts|
    ensures SumBw(ts[i := t]) == SumBw(ts) - Share(ts[i]) + Share(t)
  {
    var n := |ts| - 1;
    if i == n {
      assert ts[i := t][..n] == ts[..n];
    } else {
      SumUpdate(ts[..n], i, t);
      assert ts[i := t][..n] == ts[..n][i := t];
    }
  }

  lemma {:induction false} SumAtMost(ts: seq<Option<Task>>)
    requires forall i :: 0 <= i < |ts| && ts[i].Some? ==> ts[i].value.bw <= BW_UNIT
    ensures SumBw(ts) <= |ts| * BW_UNIT
  {
    if ts == [] {
    } else {
      SumAtMost(ts[..|ts| - 1]);
    }
  }

  lemma {:induction false} ShareAtMostSum(ts: seq<Option<Task>>, i: nat)
    requires i < |ts|
    ensures Share(ts[i]) <= SumBw(ts)
  {
    if i == |ts| - 1 {
    } else {
      ShareAtMostSum(ts[..|ts| - 1], i);
    }
  }

  /** None of the 64-bit operations wraps in a state that satisfies the invariant. */
  lemma NoWrap(s: Domain, i: nat)
    requires Inv(s) && IsTask(s, i)
    ensures Share(s.tasks[i]) <= s.total <= MAX_TASKS * BW_UNIT
  {
    SumAtMost(s.tasks);
    ShareAtMostSum(s.tasks, i);
    MulCancel(|s.tasks|, MAX_TASKS, BW_UNIT);
  }

  lemma Fits64(x: nat)
    requires x < U64
    ensures x % U64 == x
  {
  }

  lemma OverflowMeans(bw: nat, total: nat, cpus: nat, oldBw: nat, newBw: nat)
    requires bw == NO_LIMIT || bw * cpus < U64
    requires oldBw <= total && total + newBw < U64
    ensures Overflows(bw, total, cpus, oldBw, newBw) <==> bw != NO_LIMIT && bw * cpus < total - oldBw + newBw
  {
    Fits64(total - oldBw + newBw);
    if bw != NO_LIMIT { Fits64(bw * cpus); }
  }

  lemma CapacityFits(s: Domain)
    requires Wf(s)
    ensures s.bw == NO_LIMIT || s.bw * |s.active| < U64
  {
    if s.bw != NO_LIMIT {
      SubsetSize(s.active, s.active + s.reverting);
      ProductAtMost(s.bw, |s.active|, BW_UNIT, MAX_CPUS);
    }
  }

  lemma ProductAtMost(a: nat, b: nat, c: nat, d: nat)
    requires a <= c && b <= d
    ensures a * b <= c * d
  {
    assert c * d - a * b == (c - a) * d + a * (d - b);
  }

  // ---------------------------------------------------------------- one step

  lemma CpusAtLeast(s: Domain)
    requires Wf(s)
    ensures Cpus(s) >= 1 && |s.active| <= Cpus(s)
  {
    SubsetSize(s.active, s.active + s.reverting);
    if s.active + s.reverting != {} {
      var c :| c in s.active + s.reverting;
      SubsetSize({c}, s.active + s.reverting);
    }
  }

  /** A total that the domain can hold after a change of one task. */
  predicate Covered(s: Domain, total: nat) {
    total <= s.total || s.bw == NO_LIMIT || total <= s.bw * |s.active|
  }

  lemma CoveredIsBounded(s: Domain, total: nat)
    requires Wf(s) && Bounded(s) && Covered(s, total)
    ensures Bounded(s.(total := total))
  {
    CpusAtLeast(s);
    ProductAtMost(s.bw, |s.active|, s.bw, Cpus(s));
  }

  /** Nothing that admission computes for t and the new bandwidth wraps. */
  predicate Ready(s: Domain, t: Task, newBw: nat) {
    TidyTask(t) && (t.dl ==> t.bw <= s.total) && s.total + newBw < U64 && (s.bw == NO_LIMIT || s.bw * |s.active| < U64)
  }

  lemma IsReady(s: Domain, i: nat, newBw: nat)
    requires Inv(s) && IsTask(s, i) && newBw <= BW_UNIT
    ensures Ready(s, s.tasks[i].value, newBw)
  {
    NoWrap(s, i);
    CapacityFits(s);
  }

  /** An admitted change moves the total by exactly the change in the task's share, and fits the domain. */
  lemma AdmittedTotal(s: Domain, t: Task, dl: bool, newBw: nat, r: (int, nat))
    requires Ready(s, t, newBw) && (!dl ==> newBw == 0)
    requires r == (if dl || t.dlPrio then Grant(s, t, dl, newBw) else (0, s.total)) && r.0 == 0
    requires !(dl && !t.dl && t.bw == newBw != 0) && !(!dl && t.dl && !t.dlPrio && t.bw != 0)
    ensures r.1 == s.total - Share(Some(t)) + newBw && Covered(s, r.1)
  {
    OverflowMeans(s.bw, s.total, |s.active|, Share(Some(t)), newBw);
    Fits64(s.total + newBw);
    if t.dl { Fits64(s.total - t.bw); Fits64(s.total - t.bw + newBw); }
  }

  lemma RescheduledTask(t: Task, a: Attr)
    requires TidyTask(t) && (a.dl ==> CheckParam(a)) && (!a.dl && t.dl && !t.dlPrio ==> t.bw == 0)
    ensures TidyTask(Rescheduled(t, a)) && Share(Some(Rescheduled(t, a))) == NewBw(a)
  {
    NewBwAtMostOne(a);
  }

  /** Replacing one task conserves exactly when the total follows the task's share. */
  lemma ReplaceConserves(s: Domain, i: nat, t: Option<Task>, s': Domain)
    requires Inv(s) && i < |s.tasks| && s' == Put(s, i, t).(total := s'.total)
    ensures Conserved(s') <==> s'.total == s.total - Share(s.tasks[i]) + Share(t)
  {
    SumUpdate(s.tasks, i, t);
  }

  lemma ReplaceKeeps(s: Domain, i: nat, t: Option<Task>, s': Domain)
    requires Inv(s) && i < |s.tasks| && (t.Some? ==> TidyTask(t.value))
    requires s' == Put(s, i, t).(total := s'.total) && 0 <= s'.total < U64 && Covered(s, s'.total) && Conserved(s')
    ensures Inv(s')
  {
    CoveredIsBounded(s, s'.total);
  }

  lemma SetConserves(s: Domain, i: nat, a: Attr, allowed: bool, same: bool)
    requires Inv(s) && IsTask(s, i)
    ensures var op := Set(i, a, allowed, same);
      (Conserved(Do(s, op)) <==> !Leaks(s, op)) && (!Leaks(s, op) ==> Inv(Do(s, op)))
  {
    var t, s' := s.tasks[i].value, SetScheduler(s, i, a, allowed, same).1;
    assert TidyTask(t);
    if s' != s {
      NewBwAtMostOne(a);
      ReplaceConserves(s, i, Some(Rescheduled(t, a)), s');
      if !Leaks(s, Set(i, a, allowed, same)) {
        RescheduledTask(t, a);
        IsReady(s, i, NewBw(a));
        AdmittedTotal(s, t, a.dl, NewBw(a), (0, s'.total));
        ReplaceKeeps(s, i, Some(Rescheduled(t, a)), s');
      }
    }
  }

  lemma DieConserves(s: Domain, i: nat)
    requires Inv(s) && IsTask(s, i)
    ensures (Conserved(TaskDead(s, i)) <==> !Leaks(s, Die(i))) && (!Leaks(s, Die(i)) ==> Inv(TaskDead(s, i)))
  {
    var t, s' := s.tasks[i].value, TaskDead(s, i);
    assert TidyTask(t);
    NoWrap(s, i);
    ReplaceConserves(s, i, None, s');
    if !Leaks(s, Die(i)) {
      Fits64(s.total - Returned(t));
      ReplaceKeeps(s, i, None, s');
    }
  }

  lemma TaskOpConserves(s: Domain, op: Op)
    requires Inv(s) && Enabled(s, op) && (op.Boost? || op.Fork? || op.Normalize?)
    ensures (Conserved(Do(s, op)) <==> !Leaks(s, op)) && (!Leaks(s, op) ==> Inv(Do(s, op)))
  {
    var i, s' := op.i, Do(s, op);
    if op.Normalize? && !s.tasks[i].value.dlPrio { return; }
    if IsTask(s, i) {
      assert TidyTask(s.tasks[i].value);
      NoWrap(s, i);
    }
    ReplaceConserves(s, i, s'.tasks[i], s');
    if !Leaks(s, op) { ReplaceKeeps(s, i, s'.tasks[i], s'); }
  }

  lemma LimitsConserve(s: Domain, period: SysctlPeriod, runtime: SysctlRuntime, rtErr: bool)
    requires Inv(s)
    ensures Inv(SetLimits(s, period, runtime, rtErr))
  {
    var s' := SetLimits(s, period, runtime, rtErr);
    CpusAtLeast(s);
    if LimitsAccepted(s, period, runtime, rtErr) {
      GlobalRatioAtMostOne(period, runtime);
      if s'.bw != NO_LIMIT { ProductAtMost(s'.bw, 1, s'.bw, Cpus(s)); }
    }
  }

  lemma PrepareDownConserves(s: Domain, cpu: nat)
    requires Inv(s) && cpu in s.active
    ensures Inv(PrepareDown(s, cpu))
  {
    var active, s' := s.active - {cpu}, PrepareDown(s, cpu);
    SubsetSize(s'.active + s'.reverting, s.active + s.reverting);
    if Overflows(s.bw, s.total, |active|, 0, 0) {
      assert s'.active + s'.reverting == s.active + s.reverting;
    } else if s.bw != NO_LIMIT {
      SubsetSize(active, s.active + s.reverting);
      ProductAtMost(s.bw, |active|, BW_UNIT, MAX_CPUS);
      OverflowMeans(s.bw, s.total, |active|, 0, 0);
      CpusAtLeast(s');
      ProductAtMost(s.bw, |active|, s.bw, Cpus(s'));
    }
  }

  lemma MoreCpusConserve(s: Domain, s': Domain)
    requires Inv(s) && s' == s.(active := s'.active, reverting := s'.reverting)
    requires s'.active !! s'.reverting && |s'.active + s'.reverting| <= MAX_CPUS
    requires s.active + s.reverting <= s'.active + s'.reverting
    ensures Inv(s')
  {
    SubsetSize(s.active + s.reverting, s'.active + s'.reverting);
    CpusAtLeast(s');
    if s.bw != NO_LIMIT { ProductAtMost(s.bw, Cpus(s), s.bw, Cpus(s')); }
  }

  lemma CpuOpConserves(s: Domain, op: Op)
    requires Inv(s) && Enabled(s, op) && (op.DownPrepare? || op.DownFailed? || op.Up?)
    ensures Inv(Do(s, op))
  {
    var s' := Do(s, op);
    match op
    case DownPrepare(cpu) => PrepareDownConserves(s, cpu);
    case DownFailed(cpu) =>
      assert s'.active + s'.reverting == s.active + s.reverting;
      MoreCpusConserve(s, s');
    case Up(cpu) =>
      assert s'.active + s'.reverting == s.active + s.reverting + {cpu};
      MoreCpusConserve(s, s');
  }

  /** Every step keeps total_bw equal to the tasks' bandwidth, except exactly the leaking ones. */
  lemma StepConserves(s: Domain, op: Op)
    requires Inv(s) && Enabled(s, op)
    ensures Conserved(Do(s, op)) <==> !Leaks(s, op)
    ensures !Leaks(s, op) ==> Inv(Do(s, op))
  {
    match op
    case Set(i, a, allowed, same) => SetConserves(s, i, a, allowed, same);
    case Limits(period, runtime, rtErr) => LimitsConserve(s, period, runtime, rtErr);
    case DownPrepare(_) => CpuOpConserves(s, op);
    case DownFailed(_) => CpuOpConserves(s, op);
    case Up(_) => CpuOpConserves(s, op);
    case Die(i) => DieConserves(s, i);
    case _ => TaskOpConserves(s, op);
  }

  // ---------------------------------------------------------------- runs

  /** init_dl_bw: nothing is allocated yet, and no task is a deadline task. */
  ghost predicate Init(s: Domain) {
    && Wf(s) && s.total == 0 && s.reverting == {}
    && forall i :: 0 <= i < |s.tasks| && s.tasks[i].Some? ==> s.tasks[i].value == FORKED
  }

  ghost predicate Next(s: Domain, s': Domain) {
    exists op :: Enabled(s, op) && s' == Do(s, op) && !Leaks(s, op)
  }

  lemma {:induction false} NoShares(ts: seq<Option<Task>>)
    requires forall i :: 0 <= i < |ts| ==> Share(ts[i]) == 0
    ensures SumBw(ts) == 0
  {
    if ts == [] {
    } else {
      NoShares(ts[..|ts| - 1]);
    }
  }

  lemma InitInv(s: Domain)
    requires Init(s)
    ensures Inv(s)
  {
    NoShares(s.tasks);
  }

  lemma ReachableInv(r: seq<Domain>, k: nat)
    requires IsRun(Init, Next, r) && k < |r|
    ensures Inv(r[k])
  {
    forall s: Domain | Init(s) ensures Inv(s) { InitInv(s); }
    forall s: Domain, s': Domain | Inv(s) && Next(s, s') ensures Inv(s') {
      var op :| Enabled(s, op) && s' == Do(s, op) && !Leaks(s, op);
      StepConserves(s, op);
    }
    RunInvariant(Init, Next, s => Inv(s), r, k);
  }

  /** In every run without a leaking step, total_bw is what the deadline tasks hold and fits the active CPUs. */
  lemma BandwidthIsConserved(r: seq<Domain>, k: nat)
    requires IsRun(Init, Next, r) && k < |r|
    ensures r[k].total == SumBw(r[k].tasks)
    ensures r[k].reverting == {} && r[k].active != {} && r[k].bw != NO_LIMIT ==> r[k].total <= r[k].bw * |r[k].active|
  {
    ReachableInv(r, k);
    assert r[k].active + {} == r[k].active;
  }

  /** A change of an unboosted task never leaks, whatever its parameters. */
  lemma UnboostedNeverLeaks(s: Domain, op: Op)
    requires Inv(s) && Enabled(s, op) && op.Set? && s.tasks[op.i].value.dlPrio == s.tasks[op.i].value.dl
    ensures !Leaks(s, op)
  {
    assert TidyTask(s.tasks[op.i].value);
  }

  /** A step of a system in which no task is boosted and none is normalized. */
  ghost predicate NextUnboosted(s: Domain, s': Domain) {
    exists op :: Enabled(s, op) && s' == Do(s, op) && !op.Boost? && !op.Normalize?
  }

  ghost predicate Unboosted(s: Domain) {
    forall i :: 0 <= i < |s.tasks| && s.tasks[i].Some? ==>
      s.tasks[i].value.waiter == None && s.tasks[i].value.dlPrio == s.tasks[i].value.dl
  }

  lemma UnboostedStep(s: Domain, op: Op)
    requires Inv(s) && Unboosted(s) && Enabled(s, op) && !op.Boost? && !op.Normalize?
    ensures Inv(Do(s, op)) && Unboosted(Do(s, op))
  {
    if op.Set? { UnboostedNeverLeaks(s, op); }
    StepConserves(s, op);
  }

  lemma UnboostedBandwidthIsConserved(r: seq<Domain>, k: nat)
    requires IsRun(Init, NextUnboosted, r) && k < |r|
    ensures r[k].total == SumBw(r[k].tasks)
    ensures r[k].reverting == {} && r[k].active != {} && r[k].bw != NO_LIMIT ==> r[k].total <= r[k].bw * |r[k].active|
  {
    forall s: Domain | Init(s) ensures Inv(s) && Unboosted(s) { InitInv(s); }
    forall s: Domain, s': Domain | Inv(s) && Unboosted(s) && NextUnboosted(s, s') ensures Inv(s') && Unboosted(s') {
      var op :| Enabled(s, op) && s' == Do(s, op) && !op.Boost? && !op.Normalize?;
      UnboostedStep(s, op);
    }
    RunInvariant(Init, NextUnboosted, s => Inv(s) && Unboosted(s), r, k);
    assert Inv(r[k]);
    assert r[k].active + {} == r[k].active;
  }

  // ---------------------------------------------------------------- true quotients

  /** What the task asks for, without wrap-around. */
  function TrueShare(t: Option<Task>): nat {
    if t.Some? && t.value.dl then TrueRatio(t.value.period, t.value.runtime) else 0
  }

  function SumTrue(ts: seq<Option<Task>>): nat {
    if ts == [] then 0 else SumTrue(ts[..|ts| - 1]) + TrueShare(ts[|ts| - 1])
  }

  /** No task of the policy has a runtime of 2^44 ns or more. */
  ghost predicate Moderate(ts: seq<Option<Task>>) {
    forall i :: 0 <= i < |ts| && ts[i].Some? && ts[i].value.dl ==> ts[i].value.runtime < EXACT_LIMIT
  }

  lemma {:induction false} SumIsTrue(ts: seq<Option<Task>>)
    requires Moderate(ts) && forall i :: 0 <= i < |ts| && ts[i].Some? ==> HasItsRatio(ts[i].value)
    ensures SumTrue(ts) == SumBw(ts)
  {
    if ts != [] {
      var t := ts[|ts| - 1];
      SumIsTrue(ts[..|ts| - 1]);
      if t.Some? && t.value.dl { ExactBelow(t.value.period, t.value.runtime); }
    }
  }

  /** With runtimes below 2^44 ns the true quotients fit the active CPUs, in every run without a leaking step. */
  lemma TrueQuotientsFit(r: seq<Domain>, k: nat)
    requires IsRun(Init, Next, r) && k < |r| && Moderate(r[k].tasks)
    requires r[k].reverting == {} && r[k].active != {} && r[k].bw != NO_LIMIT
    ensures SumTrue(r[k].tasks) <= r[k].bw * |r[k].active|
  {
    BandwidthIsConserved(r, k);
    ReachableInv(r, k);
    assert forall i :: 0 <= i < |r[k].tasks| && r[k].tasks[i].Some? ==> TidyTask(r[k].tasks[i].value);
    SumIsTrue(r[k].tasks);
  }

  const HUGE: Attr := Attr(true, 0, EXACT_LIMIT, EXACT_LIMIT, 0)
  const DEFAULT_BW: nat := 996_147 // 95 % of a CPU

  /** A task that asks for a whole CPU, for 2^44 ns at a time, is admitted unaccounted beside the limit of 95 %. */
  lemma WrapIsReachable() returns (r: seq<Domain>, s: Domain)
    ensures IsRun(Init, Next, r) && s == r[|r| - 1] && s.reverting == {} && s.active != {} && s.bw != NO_LIMIT
    ensures s.total == 0 && SumTrue(s.tasks) > s.bw * |s.active|
  {
    var enter := Set(0, HUGE, true, false);
    var s0 := Domain(DEFAULT_BW, 0, [Some(FORKED)], {0}, {});
    s := Domain(DEFAULT_BW, 0, [Some(Task(true, true, EXACT_LIMIT, EXACT_LIMIT, 0, None))], {0}, {});
    WrappedRatioVanishes();
    assert Enabled(s0, enter) && s == Do(s0, enter);
    assert EXACT_LIMIT * BW_UNIT / EXACT_LIMIT == BW_UNIT;
    assert s.tasks[..0] == [];
    r := [s0, s];
  }

  // ---------------------------------------------------------------- the global limit

  /** The limit that a write asks for, in plain numbers: a negative runtime stands for a whole CPU. */
  function Quotient(period: SysctlPeriod, runtime: SysctlRuntime): nat
    requires period > 0
  {
    if runtime < 0 then 0x10_0000 else runtime * 0x10_0000 / period
  }

  /**
    A write is accepted exactly when its values are valid and what the deadline tasks hold does not exceed
    the quotient; then the quotient becomes the limit, or nothing is limited if the runtime is negative.
   */
  lemma LimitsAreCarriedOut(s: Domain, period: SysctlPeriod, runtime: SysctlRuntime, rtErr: bool)
    requires Inv(s)
    ensures var s' := SetLimits(s, period, runtime, rtErr);
      if period > 0
        && (runtime == -1 || (runtime >= 0 && runtime <= period) || (runtime < -1 && runtime + 0x1_0000_0000 <= period))
        && !rtErr && SumBw(s.tasks) <= Quotient(period, runtime)
      then LimitsAccepted(s, period, runtime, rtErr)
        && s' == s.(bw := if runtime < 0 then 0xffff_ffff_ffff_ffff else runtime * 0x10_0000 / period)
      else !LimitsAccepted(s, period, runtime, rtErr) && s' == s
  {
    GlobalValidIff(period, runtime);
    if period > 0 { GlobalRatioIs(period, runtime); }
  }

  // ---------------------------------------------------------------- when a request is granted

  /** The admission decision in plain numbers. */
  lemma AdmittedIff(s: Domain, i: nat, a: Attr)
    requires Inv(s) && IsTask(s, i) && (a.dl ==> CheckParam(a))
    ensures var t := s.tasks[i].value;
      Admitted(s, t, a) <==>
        || (!a.dl && (t.dl || t.bw == 0))
        || (a.dl && (NewBw(a) == t.bw || s.bw == NO_LIMIT
                     || s.total - Share(s.tasks[i]) + NewBw(a) <= s.bw * |s.active|))
  {
    NewBwAtMostOne(a);
    IsReady(s, i, NewBw(a));
    GrantIff(s, s.tasks[i].value, a.dl, NewBw(a));
  }

  lemma GrantIff(s: Domain, t: Task, dl: bool, newBw: nat)
    requires Ready(s, t, newBw) && (!dl ==> newBw == 0)
    ensures Grant(s, t, dl, newBw).0 == 0 <==>
        || (!dl && (t.dl || t.bw == 0))
        || (dl && (newBw == t.bw || s.bw == NO_LIMIT || s.total - Share(Some(t)) + newBw <= s.bw * |s.active|))
  {
    OverflowMeans(s.bw, s.total, |s.active|, Share(Some(t)), newBw);
  }

  /** The parameters of a request: at least 1024 ns, within the deadline, within the period if there is one. */
  predicate ValidRequest(a: Attr) {
    && 1024 <= a.runtime <= a.deadline < 0x8000_0000_0000_0000
    && (a.period == 0 || a.deadline <= a.period < 0x8000_0000_0000_0000)
  }

  /** The change stays within what the active CPUs may give, in plain numbers. */
  predicate CanBeGranted(s: Domain, t: Task, a: Attr) {
    if a.dl then NewBw(a) == t.bw || s.bw == NO_LIMIT || s.total - Share(Some(t)) + NewBw(a) <= s.bw * |s.active|
    else t.dl || t.bw == 0
  }

  /** Each error of a change of policy, and that a refused one changes nothing. */
  lemma SetRefusedIff(s: Domain, i: nat, a: Attr, allowed: bool, same: bool)
    requires Inv(s) && IsTask(s, i)
    ensures var t, (err, s') := s.tasks[i].value, SetScheduler(s, i, a, allowed, same);
      && (err == EINVAL <==> a.dl && !ValidRequest(a))
      && (err == EPERM <==> (a.dl ==> ValidRequest(a)) && !allowed)
      && (err == EBUSY <==> (a.dl ==> ValidRequest(a)) && allowed && (a.dl || t.dl || !same)
                            && (a.dl || t.dlPrio) && !CanBeGranted(s, t, a))
      && err in {0, EINVAL, EPERM, EBUSY} && (err != 0 ==> s' == s)
  {
    CheckParamIff(a);
    if a.dl ==> CheckParam(a) { AdmittedIff(s, i, a); }
  }

  lemma CheckParamIff(a: Attr)
    ensures CheckParam(a) <==> ValidRequest(a)
  {
  }

  /**
    What an accepted change leaves: the policy and, for a deadline task, the parameters asked for; the class at
    once, unless a waiter at least as urgent keeps the task where it is; nothing of any other task.
   */
  lemma SetIsCarriedOut(s: Domain, i: nat, a: Attr, allowed: bool, same: bool)
    requires IsTask(s, i) && SetScheduler(s, i, a, allowed, same).0 == 0 && (a.dl || s.tasks[i].value.dl || !same)
    ensures IsTask(SetScheduler(s, i, a, allowed, same).1, i)
    ensures var s' := SetScheduler(s, i, a, allowed, same).1;
      var t, t' := s.tasks[i].value, s'.tasks[i].value;
      var waits := t.waiter.Some? && t.waiter.value <= if a.dl then -1 else 99 - a.priority;
      && s'.tasks == s.tasks[i := s'.tasks[i]] && (s'.bw, s'.active, s'.reverting) == (s.bw, s.active, s.reverting)
      && t'.dl == a.dl && t'.waiter == t.waiter && t'.dlPrio == (if waits then t.dlPrio else a.dl)
      && (a.dl ==> t'.runtime == a.runtime && t'.period == if a.period != 0 then a.period else a.deadline)
      && (a.dl ==> t'.bw == ToRatio(t'.period, t'.runtime))
      && (!a.dl ==> t'.bw == if t.dlPrio && !waits then 0 else t.bw)
  {
  }

  /** What the other operations on a task do. */
  lemma TaskOpsAre(s: Domain, i: nat, waiter: Option<Prio>)
    requires Inv(s) && IsTask(s, i)
    ensures var t, s' := s.tasks[i].value, Do(s, Boost(i, waiter));
      s' == s.(tasks := s'.tasks) && s'.tasks == s.tasks[i := Some(
        if t.dl || waiter == Some(-1) then t.(dlPrio := true, waiter := waiter)
        else if t.dlPrio then Task(false, false, 0, 0, 0, waiter) else t.(waiter := waiter))]
    ensures var t, s' := s.tasks[i].value, Do(s, Normalize(i));
      s' == if t.dlPrio then s.(tasks := s.tasks[i := Some(Task(false, false, 0, 0, 0, t.waiter))]) else s
    ensures var t, s' := s.tasks[i].value, Do(s, Die(i));
      s' == s.(tasks := s.tasks[i := None], total := s'.total)
      && (t.dl == t.dlPrio ==> s'.total == s.total - Share(s.tasks[i]))
  {
    NoWrap(s, i);
    assert TidyTask(s.tasks[i].value);
    if s.tasks[i].value.dl { Fits64(s.total - s.tasks[i].value.bw); }
  }

  /** What the operations on a CPU do; an attempt to take one down that is refused is undone later. */
  lemma CpuOpsAre(s: Domain, cpu: nat)
    requires Inv(s)
    ensures cpu in s.active ==>
      var refused := s.bw != NO_LIMIT && s.total > s.bw * (|s.active| - 1);
      Do(s, DownPrepare(cpu)) ==
        s.(active := s.active - {cpu}, reverting := if refused then s.reverting + {cpu} else s.reverting)
    ensures cpu in s.reverting ==>
      Do(s, DownFailed(cpu)) == s.(active := s.active + {cpu}, reverting := s.reverting - {cpu})
    ensures Enabled(s, Up(cpu)) ==> Do(s, Up(cpu)) == s.(active := s.active + {cpu})
  {
    if cpu in s.active {
      DownIff(s, cpu);
      assert s.reverting + {} == s.reverting;
    }
  }

  const WHOLE_CPU: Attr := Attr(true, 0, 0x10_0000, 0x10_0000, 0)
  const ORDINARY: Attr := Attr(false, 0, 0, 0, 0)

  function OneTask(total: nat, t: Task): Domain {
    Domain(NO_LIMIT, total, [Some(t)], {0}, {})
  }

  lemma OneShare(t: Task)
    ensures SumBw([Some(t)]) == Share(Some(t))
  {
    assert [Some(t)][..0] == [];
  }

  /** A deadline task that leaves while boosted and returns with the same parameters runs unaccounted. */
  lemma BoostedReturnLeaks() returns (r: seq<Domain>, op: Op)
    ensures IsRun(Init, Next, r) && Enabled(r[|r| - 1], op) && op.Set?
    ensures !Conserved(Do(r[|r| - 1], op)) && Do(r[|r| - 1], op).total == 0
  {
    var enter, boost, leave := Set(0, WHOLE_CPU, true, false), Boost(0, Some(50)), Set(0, ORDINARY, true, false);
    var s0 := OneTask(0, FORKED);
    var s1 := OneTask(BW_UNIT, Task(true, true, 0x10_0000, 0x10_0000, BW_UNIT, None));
    var s2 := OneTask(BW_UNIT, Task(true, true, 0x10_0000, 0x10_0000, BW_UNIT, Some(50)));
    var s3 := OneTask(0, Task(false, true, 0x10_0000, 0x10_0000, BW_UNIT, Some(50)));
    assert Enabled(s0, enter) && s1 == Do(s0, enter);
    assert Enabled(s1, boost) && s2 == Do(s1, boost);
    assert Enabled(s2, leave) && s3 == Do(s2, leave);
    OneShare(Task(true, true, 0x10_0000, 0x10_0000, BW_UNIT, Some(50)));
    r, op := [s0, s1, s2, s3], enter;
  }

  /** normalize_rt_tasks moves a deadline task out without returning its bandwidth. */
  lemma NormalizeLeaks() returns (r: seq<Domain>, op: Op)
    ensures IsRun(Init, Next, r) && Enabled(r[|r| - 1], op) && op.Normalize?
    ensures !Conserved(Do(r[|r| - 1], op)) && SumBw(Do(r[|r| - 1], op).tasks) == 0
  {
    var enter := Set(0, WHOLE_CPU, true, false);
    var s0 := OneTask(0, FORKED);
    var s1 := OneTask(BW_UNIT, Task(true, true, 0x10_0000, 0x10_0000, BW_UNIT, None));
    assert Enabled(s0, enter) && s1 == Do(s0, enter);
    OneShare(FORKED);
    r, op := [s0, s1], Normalize(0);
    assert Do(s1, op) == OneTask(BW_UNIT, FORKED);
  }

  /** A task that is normalized while a deadline task waits for it, and then enters the policy, leaves unaccounted. */
  lemma NormalizedTaskLeaks() returns (r: seq<Domain>, op: Op)
    ensures IsRun(Init, Next, r) && Enabled(r[|r| - 1], op) && op.Set?
    ensures !Conserved(Do(r[|r| - 1], op)) && SumBw(Do(r[|r| - 1], op).tasks) == 0
  {
    var enter, leave := Set(0, WHOLE_CPU, true, false), Set(0, ORDINARY, true, false);
    var s0 := OneTask(0, FORKED);
    var s1 := OneTask(0, Task(false, true, 0, 0, 0, Some(-1)));
    var s2 := OneTask(0, Task(false, false, 0, 0, 0, Some(-1)));
    var s3 := OneTask(BW_UNIT, Task(true, false, 0x10_0000, 0x10_0000, BW_UNIT, Some(-1)));
    OneShare(Task(false, true, 0, 0, 0, Some(-1)));
    assert Enabled(s0, Boost(0, Some(-1))) && s1 == Do(s0, Boost(0, Some(-1)));
    assert Enabled(s1, Normalize(0)) && s2 == Do(s1, Normalize(0));
    assert Enabled(s2, enter) && s3 == Do(s2, enter);
    OneShare(Task(false, false, 0x10_0000, 0x10_0000, BW_UNIT, Some(-1)));
    assert Do(s3, leave) == OneTask(BW_UNIT, Task(false, false, 0x10_0000, 0x10_0000, BW_UNIT, Some(-1)));
    r, op := [s0, s1, s2, s3], leave;
  }

  // ---------------------------------------------------------------- the domain, updated in place

  class RootDomain {
    var bw: nat
    var total: nat
    var tasks: seq<Option<Task>>
    var active: set<nat>
    var reverting: set<nat>

    function View(): Domain
      reads this
    {
      Domain(bw, total, tasks, active, reverting)
    }

    constructor (limit: nat, slots: nat, cpus: set<nat>)
      requires (limit <= BW_UNIT || limit == NO_LIMIT) && slots <= MAX_TASKS && |cpus| <= MAX_CPUS
      ensures Init(View()) && bw == limit && active == cpus
    {
      bw, total, active, reverting := limit, 0, cpus, {};
      tasks := seq(slots, _ => None);
      new;
      assert active + reverting == cpus;
    }

    method Clear(b: nat)
      modifies this`total
      ensures total == (old(total) - b) % U64
    {
      total := (total - b) % U64;
    }

    method Add(b: nat)
      modifies this`total
      ensures total == (old(total) + b) % U64
    {
      total := (total + b) % U64;
    }

    /** dl_overflow */
    method Request(i: nat, a: Attr) returns (err: int)
      requires IsTask(View(), i)
      modifies this`total
      ensures (err, total) == DlOverflow(old(View()), tasks[i].value, a)
    {
      var t, newBw := tasks[i].value, NewBw(a);
      err := -1;
      if newBw == t.bw { return 0; }
      var cpus := |active|;
      if a.dl && !t.dl && !Overflows(bw, total, cpus, 0, newBw) {
        Add(newBw);
        err := 0;
      } else if a.dl && t.dl && !Overflows(bw, total, cpus, t.bw, newBw) {
        Clear(t.bw);
        Add(newBw);
        err := 0;
      } else if !a.dl && t.dl {
        Clear(t.bw);
        err := 0;
      }
    }

    /** __sched_setscheduler */
    method SetSched(i: nat, a: Attr, allowed: bool, same: bool) returns (err: int)
      requires IsTask(View(), i)
      modifies this`total, this`tasks
      ensures (err, View()) == SetScheduler(old(View()), i, a, allowed, same)
    {
      var t := tasks[i].value;
      if a.dl && !CheckParam(a) { return EINVAL; }
      if !allowed { return EPERM; }
      if !a.dl && !t.dl && same { return 0; }
      if a.dl || t.dlPrio {
        err := Request(i, a);
        if err != 0 {
          assert View() == old(View());
          return EBUSY;
        }
      }
      tasks := tasks[i := Some(Rescheduled(t, a))];
      return 0;
    }

    /** task_dead of the deadline class */
    method Dead(i: nat)
      requires IsTask(View(), i)
      modifies this`total, this`tasks
      ensures View() == TaskDead(old(View()), i)
    {
      if tasks[i].value.dlPrio { Clear(tasks[i].value.bw); }
      tasks := tasks[i := None];
    }

    /** sched_cpu_inactive and, when it fails, sched_cpu_active for CPU_DOWN_FAILED */
    method TryDown(cpu: nat) returns (err: int)
      requires Inv(View()) && cpu in active
      modifies this`active, this`reverting
      ensures Inv(View()) && reverting == old(reverting)
      ensures active == if err == 0 then old(active) - {cpu} else old(active)
      ensures err == if RestHolds(old(View())) then 0 else EBUSY
    {
      ghost var before := View();
      DownKeeps(before, cpu);
      active := active - {cpu};
      if Overflows(bw, total, |active|, 0, 0) {
        reverting := reverting + {cpu};
        active := active + {cpu};
        reverting := reverting - {cpu};
        assert View() == before;
        return EBUSY;
      }
      return 0;
    }

    /** sched_rt_handler's deadline part: sched_dl_global_constraints, then sched_dl_do_global. */
    method SetGlobal(period: SysctlPeriod, runtime: SysctlRuntime, rtErr: bool) returns (ok: bool)
      modifies this`bw
      ensures ok == LimitsAccepted(old(View()), period, runtime, rtErr)
      ensures View() == SetLimits(old(View()), period, runtime, rtErr)
    {
      if !GlobalValid(period, runtime) || rtErr { return false; }
      if GlobalRatio(period, runtime) < total { return false; }
      bw := NO_LIMIT;
      if GlobalRuntime(runtime) != RUNTIME_INF { bw := GlobalRatio(period, runtime); }
      return true;
    }
  }

  /** What is allocated fits the active CPUs without one of them. */
  predicate RestHolds(s: Domain) {
    s.bw == NO_LIMIT || s.total <= s.bw * (|s.active| - 1)
  }

  /** An accepted attempt keeps the invariant with the CPU gone. */
  lemma DownKeeps(s: Domain, cpu: nat)
    requires Inv(s) && cpu in s.active
    ensures cpu !in s.reverting
    ensures Overflows(s.bw, s.total, |s.active - {cpu}|, 0, 0) <==> !RestHolds(s)
    ensures RestHolds(s) ==> Inv(s.(active := s.active - {cpu}))
  {
    DownIff(s, cpu);
    PrepareDownConserves(s, cpu);
    assert s.reverting + {} == s.reverting;
  }

  /** Taking a CPU down is refused exactly when the remaining ones cannot hold what is allocated. */
  lemma DownIff(s: Domain, cpu: nat)
    requires Inv(s) && cpu in s.active
    ensures Overflows(s.bw, s.total, |s.active - {cpu}|, 0, 0) <==>
      s.bw != NO_LIMIT && s.total > s.bw * (|s.active| - 1)
  {
    var active := s.active - {cpu};
    assert s.active == active + {cpu};
    SubsetSize(active, s.active + s.reverting);
    if s.bw != NO_LIMIT { ProductAtMost(s.bw, |active|, BW_UNIT, MAX_CPUS); }
    OverflowMeans(s.bw, s.total, |active|, 0, 0);
  }
}
