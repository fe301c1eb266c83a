/** Policy, priority, scheduling class and queue of a task (assg4/core.c). */
module SchedParams {
  import opened Basics
  import opened Bandwidth

  const MAX_RT_PRIO: int := 100
  const DEFAULT_PRIO: int := 120
  const MAX_PRIO: int := 140

  type Prio = x: int | -1 <= x < 140
  type Nice = x: int | -20 <= x <= 19

  datatype Policy = Normal | Batch | IdlePolicy | Fifo | RoundRobin | Deadline
  datatype Class = Fair | Rt | Dl

  predicate RtPolicy(p: Policy) { p == Fifo || p == RoundRobin }
  predicate FairPolicy(p: Policy) { p == Normal || p == Batch || p == IdlePolicy }

  function NiceToPrio(nice: Nice): Prio { nice + DEFAULT_PRIO }

  /**
    A task: `queues` are the class queues that hold it, `waiter` is the priority of the most urgent
    task blocked on an rt_mutex it owns.
   */
  datatype Task = Task(
    policy: Policy, rtPriority: int, staticPrio: int, normalPrio: int, prio: int, cls: Class,
    onRq: bool, queues: set<Class>, resetOnFork: bool, waiter: Option<Prio>)

  // ---------------------------------------------------------------- priorities

  /** normal_prio */
  function NormalPrio(t: Task): int {
    if t.policy == Deadline then -1
    else if RtPolicy(t.policy) then MAX_RT_PRIO - 1 - t.rtPriority
    else t.staticPrio
  }

  /** The class that goes with a priority. */
  function ClassOf(prio: int): Class {
    if prio < 0 then Dl else if prio < MAX_RT_PRIO then Rt else Fair
  }

  /** rt_mutex_getprio */
  function GetPrio(t: Task): int {
    if t.waiter.Some? && t.waiter.value < t.normalPrio then t.waiter.value else t.normalPrio
  }

  /** rt_mutex_check_prio */
  predicate CheckPrio(t: Task, newPrio: int) {
    t.waiter.Some? && t.waiter.value <= newPrio
  }

  // ---------------------------------------------------------------- queues

  function Dequeued(t: Task): Task {
    t.(queues := t.queues - {t.cls})
  }

  function Enqueued(t: Task): Task {
    t.(queues := t.queues + {t.cls})
  }

  /** A queued task is taken off its class's queue, changed, and put on the queue of its class as it is then. */
  function Requeued(t: Task, change: Task -> Task): Task {
    if t.onRq then Enqueued(change(Dequeued(t))) else change(t)
  }

  function Reclassed(t: Task, prio: int): Task {
    t.(prio := prio, cls := ClassOf(prio))
  }

  // ---------------------------------------------------------------- the operations

  /** What happens to sched_policy: -1 keeps the policy, other unknown values are refused. */
  datatype PolicyArg = Keep | Given(policy: Policy) | Unknown

  /** sched_attr; `dlOk` is __checkparam_dl, `flagsOk` says that no unknown flag is set. */
  datatype Attr = Attr(policy: PolicyArg, nice: Nice, priority: nat, dlOk: bool, flagsOk: bool, resetOnFork: bool)

  /** The verdicts of the checks that depend on the caller and the rest of the system. */
  datatype Verdict = Verdict(permitted: bool, admitted: bool, dlOverflow: bool)

  function PolicyOf(t: Task, a: Attr): Policy
    requires !a.policy.Unknown?
  {
    if a.policy.Keep? then t.policy else a.policy.policy
  }

  /** The priority compared with the waiter's: it looks at the policy argument, not at the policy. */
  function NewPrio(a: Attr): int {
    if a.policy == Given(Deadline) then -1 else MAX_RT_PRIO - 1 - a.priority
  }

  /** __setscheduler_params */
  function SetParams(t: Task, a: Attr): Task
    requires !a.policy.Unknown?
  {
    var policy := PolicyOf(t, a);
    var t1 := t.(policy := policy, staticPrio := if FairPolicy(policy) then NiceToPrio(a.nice) else t.staticPrio,
                 rtPriority := a.priority);
    t1.(normalPrio := NormalPrio(t1))
  }

  /** __setscheduler */
  function SetBoth(t: Task, a: Attr): Task
    requires !a.policy.Unknown?
  {
    var t1 := SetParams(t, a);
    Reclassed(t1, NormalPrio(t1))
  }

  predicate Malformed(t: Task, a: Attr) {
    || a.policy.Unknown? || !a.flagsOk || a.priority > MAX_RT_PRIO - 1
    || (PolicyOf(t, a) == Deadline && !a.dlOk)
    || (RtPolicy(PolicyOf(t, a)) != (a.priority != 0))
  }

  /** Same policy and nothing in it to change. */
  predicate NothingToChange(t: Task, a: Attr)
    requires !a.policy.Unknown?
  {
    var policy := PolicyOf(t, a);
    && policy == t.policy && policy != Deadline
    && !(FairPolicy(policy) && NiceToPrio(a.nice) != t.staticPrio)
    && !(RtPolicy(policy) && a.priority != t.rtPriority)
  }

  function ResetFlag(t: Task, a: Attr): bool {
    if a.policy.Keep? then t.resetOnFork else a.resetOnFork
  }

  /** __sched_setscheduler */
  function SetScheduler(t: Task, a: Attr, v: Verdict): (int, Task) {
    if Malformed(t, a) then (EINVAL, t)
    else if !v.permitted then (EPERM, t)
    else if NothingToChange(t, a) then (0, t.(resetOnFork := ResetFlag(t, a)))
    else if !v.admitted then (EPERM, t)
    else if (PolicyOf(t, a) == Deadline || t.prio < 0) && v.dlOverflow then (EBUSY, t)
    else
      var t1 := t.(resetOnFork := ResetFlag(t, a));
      if CheckPrio(t1, NewPrio(a)) then (0, SetParams(t1, a))
      else (0, Requeued(t1, x => SetBoth(x, a)))
  }

  /** effective_prio */
  function EffectivePrio(t: Task): int {
    if t.prio < MAX_RT_PRIO then t.prio else NormalPrio(t)
  }

  /** set_user_nice; callers clamp the nice value. */
  function SetUserNice(t: Task, nice: Nice): Task {
    if NiceToPrio(nice) == t.staticPrio then t
    else if t.policy == Deadline || RtPolicy(t.policy) then t.(staticPrio := NiceToPrio(nice))
    else Requeued(t, x => Reniced(x, nice))
  }

  function Reniced(t: Task, nice: Nice): Task {
    var t1 := t.(staticPrio := NiceToPrio(nice));
    t1.(normalPrio := NormalPrio(t1), prio := EffectivePrio(t1))
  }

  /** A change of the waiters: rt_mutex_setprio runs when the resulting priority differs. */
  function SetWaiter(t: Task, waiter: Option<Prio>): Task {
    var t1 := t.(waiter := waiter);
    if GetPrio(t1) == t1.prio then t1 else Requeued(t1, x => Reclassed(x, GetPrio(t1)))
  }

  /** sched_fork: the child of t, or EAGAIN. */
  function SchedFork(t: Task): Option<Task> {
    var c := t.(onRq := false, queues := {}, waiter := None, prio := t.normalPrio);
    var c1 := if c.resetOnFork then ResetForFork(c) else c;
    if c1.prio < 0 then None else Some(c1.(cls := ClassOf(c1.prio)))
  }

  function ResetForFork(c: Task): Task {
    var c1 :=
      if c.policy == Deadline || RtPolicy(c.policy)
      then c.(policy := Normal, staticPrio := DEFAULT_PRIO, rtPriority := 0)
      else if c.staticPrio < DEFAULT_PRIO then c.(staticPrio := DEFAULT_PRIO)
      else c;
    c1.(normalPrio := c1.staticPrio, prio := c1.staticPrio, resetOnFork := false)
  }

  /** normalize_rt_tasks, for one user task */
  function Normalize(t: Task): Task {
    if t.prio >= MAX_RT_PRIO then (if t.staticPrio < DEFAULT_PRIO then SetUserNice(t, 0) else t)
    else Requeued(t, x => SetBoth(x, Attr(Given(Normal), 0, 0, true, true, false)))
  }

  /** activate_task and deactivate_task */
  function Activate(t: Task): Task {
    if t.onRq then t else Enqueued(t).(onRq := true)
  }

  function Deactivate(t: Task): Task {
    if t.onRq then Dequeued(t).(onRq := false) else t
  }

  // ---------------------------------------------------------------- what every task satisfies

  predicate Agrees(t: Task) {
    && MAX_RT_PRIO <= t.staticPrio < MAX_PRIO
    && 0 <= t.rtPriority < MAX_RT_PRIO && (RtPolicy(t.policy) <==> t.rtPriority != 0)
    && t.normalPrio == NormalPrio(t)
    && -1 <= t.prio < MAX_PRIO
    && t.cls == ClassOf(t.prio)
    && (t.waiter.None? ==> t.prio == t.normalPrio)
    && t.queues == (if t.onRq then {t.cls} else {})
  }

  /** The class in plain numbers: -1 is deadline, 0 to 99 real-time, 100 to 139 fair. */
  predicate ClassFitsPriority(t: Task) {
    && -1 <= t.prio < 140
    && (t.cls == Dl <==> t.prio == -1) && (t.cls == Rt <==> 0 <= t.prio < 100) && (t.cls == Fair <==> t.prio >= 100)
  }

  /** The priority that the task's own parameters give it is n. */
  predicate HasOwnPriority(t: Task, n: int) {
    match t.policy
    case Deadline => t.rtPriority == 0 && n == -1
    case Fifo => 1 <= t.rtPriority <= 99 && n == 99 - t.rtPriority
    case RoundRobin => 1 <= t.rtPriority <= 99 && n == 99 - t.rtPriority
    case Normal => t.rtPriority == 0 && 100 <= n == t.staticPrio < 140
    case Batch => t.rtPriority == 0 && 100 <= n == t.staticPrio < 140
    case IdlePolicy => t.rtPriority == 0 && 100 <= n == t.staticPrio < 140
  }

  lemma AgreesMeans(t: Task)
    requires Agrees(t)
    ensures ClassFitsPriority(t) && HasOwnPriority(t, t.normalPrio)
  {
  }

  lemma ParamsAgree(t: Task, a: Attr)
    requires Agrees(t) && t.waiter.Some? && !Malformed(t, a)
    ensures Agrees(SetParams(t, a))
  {
  }

  lemma BothAgree(t: Task, a: Attr)
    requires Agrees(t) && !Malformed(t, a)
    ensures Agrees(Requeued(t, x => SetBoth(x, a)))
  {
  }

  lemma SetSchedulerAgrees(t: Task, a: Attr, v: Verdict)
    requires Agrees(t)
    ensures Agrees(SetScheduler(t, a, v).1)
  {
    if !Malformed(t, a) {
      var t1 := t.(resetOnFork := ResetFlag(t, a));
      if CheckPrio(t1, NewPrio(a)) { ParamsAgree(t1, a); } else { BothAgree(t1, a); }
    }
  }

  lemma SetUserNiceAgrees(t: Task, nice: Nice)
    requires Agrees(t)
    ensures Agrees(SetUserNice(t, nice))
  {
  }

  lemma SetWaiterAgrees(t: Task, waiter: Option<Prio>)
    requires Agrees(t)
    ensures Agrees(SetWaiter(t, waiter)) && SetWaiter(t, waiter).prio == GetPrio(SetWaiter(t, waiter))
  {
  }

  /** A child starts with its own normal priority: no boost of the parent leaks to it. */
  lemma ForkAgrees(t: Task)
    requires Agrees(t)
    ensures SchedFork(t).Some? ==>
      Agrees(SchedFork(t).value) && SchedFork(t).value.prio == NormalPrio(SchedFork(t).value)
    ensures SchedFork(t).None? <==> t.policy == Deadline && !t.resetOnFork
  {
  }

  lemma NormalizeAgrees(t: Task)
    requires Agrees(t)
    ensures Agrees(Normalize(t))
    ensures t.prio < MAX_RT_PRIO ==> Normalize(t).policy == Normal && Normalize(t).prio == DEFAULT_PRIO
  {
    SetUserNiceAgrees(t, 0);
  }

  // ---------------------------------------------------------------- runs

  type Tasks = seq<Option<Task>>

  datatype Op =
    | OpFork(parent: nat, slot: nat) | OpNice(i: nat, nice: Nice) | OpSet(i: nat, a: Attr, v: Verdict)
    | OpWaiter(i: nat, waiter: Option<Prio>) | OpNormalize(i: nat) | OpActivate(i: nat) | OpDeactivate(i: nat)

  predicate IsTask(s: Tasks, i: nat) {
    i < |s| && s[i].Some?
  }

  predicate Enabled(s: Tasks, op: Op) {
    if op.OpFork? then IsTask(s, op.parent) && op.slot < |s| && s[op.slot].None? else IsTask(s, op.i)
  }

  /** The task that an operation on one task leaves behind. */
  function Apply(t: Task, op: Op): Task
    requires !op.OpFork?
  {
    match op
    case OpNice(_, nice) => SetUserNice(t, nice)
    case OpSet(_, a, v) => SetScheduler(t, a, v).1
    case OpWaiter(_, waiter) => SetWaiter(t, waiter)
    case OpNormalize(_) => Normalize(t)
    case OpActivate(_) => Activate(t)
    case OpDeactivate(_) => Deactivate(t)
  }

  function Do(s: Tasks, op: Op): Tasks
    requires Enabled(s, op)
  {
    if op.OpFork? then s[op.slot := SchedFork(s[op.parent].value)]
    else s[op.i := Some(Apply(s[op.i].value, op))]
  }

  predicate AllAgree(s: Tasks) {
    forall i :: 0 <= i < |s| && s[i].Some? ==> Agrees(s[i].value)
  }

  /** The first task: SCHED_NORMAL, nice 0, not queued. */
  const INIT_TASK: Task := Task(Normal, 0, DEFAULT_PRIO, DEFAULT_PRIO, DEFAULT_PRIO, Fair, false, {}, false, None)

  ghost predicate Init(s: Tasks) {
    forall i :: 0 <= i < |s| && s[i].Some? ==> s[i].value == INIT_TASK
  }

  ghost predicate Next(s: Tasks, s': Tasks) {
    exists op :: Enabled(s, op) && s' == Do(s, op)
  }

  lemma ApplyAgrees(t: Task, op: Op)
    requires Agrees(t) && !op.OpFork?
    ensures Agrees(Apply(t, op))
  {
    match op
    case OpNice(_, nice) => SetUserNiceAgrees(t, nice);
    case OpSet(_, a, v) => SetSchedulerAgrees(t, a, v);
    case OpWaiter(_, waiter) => SetWaiterAgrees(t, waiter);
    case OpNormalize(_) => NormalizeAgrees(t);
    case OpActivate(_) =>
    case OpDeactivate(_) =>
  }

  lemma StepAgrees(s: Tasks, op: Op)
    requires AllAgree(s) && Enabled(s, op)
    ensures AllAgree(Do(s, op))
  {
    if op.OpFork? { ForkAgrees(s[op.parent].value); } else { ApplyAgrees(s[op.i].value, op); }
  }

  /** In every state of every run class, priority and queue of every task agree. */
  lemma ClassPriorityQueueAgree(r: seq<Tasks>, k: nat, i: nat)
    requires IsRun(Init, Next, r) && k < |r| && IsTask(r[k], i)
    ensures var t := r[k][i].value;
      && ClassFitsPriority(t) && HasOwnPriority(t, t.normalPrio)
      && (t.waiter.None? ==> t.prio == t.normalPrio)
      && (forall c :: c in t.queues <==> t.onRq && c == t.cls)
  {
    forall s: Tasks, s': Tasks | AllAgree(s) && Next(s, s') ensures AllAgree(s') {
      var op :| Enabled(s, op) && s' == Do(s, op);
      StepAgrees(s, op);
    }
    RunInvariant(Init, Next, s => AllAgree(s), r, k);
    AgreesMeans(r[k][i].value);
  }

  // ---------------------------------------------------------------- what a boosted task runs at

  /** The task runs at what priority inheritance gives it. */
  predicate Inherits(t: Task) {
    t.prio == GetPrio(t)
  }

  /** A renice loses a boost that stays within the fair range. */
  predicate ReniceLoses(t: Task, nice: Nice) {
    && FairPolicy(t.policy) && NiceToPrio(nice) != t.staticPrio
    && t.waiter.Some? && MAX_RT_PRIO <= t.waiter.value < NiceToPrio(nice)
  }

  lemma ReniceKeepsBoostIff(t: Task, nice: Nice)
    requires Agrees(t) && Inherits(t)
    ensures Inherits(SetUserNice(t, nice)) <==> !ReniceLoses(t, nice)
  {
    var t' := SetUserNice(t, nice);
    assert FairPolicy(t.policy) && NiceToPrio(nice) != t.staticPrio ==> t'.normalPrio == NiceToPrio(nice);
  }

  /** The change of parameters is accepted and is not a change of the reset flag alone. */
  predicate Accepted(t: Task, a: Attr, v: Verdict) {
    && !Malformed(t, a) && v.permitted && !NothingToChange(t, a) && v.admitted
    && !((PolicyOf(t, a) == Deadline || t.prio < 0) && v.dlOverflow)
  }

  /**
    A change of parameters loses the inherited priority in two ways. Deferred because of a waiter, it
    leaves a task that was more urgent on its own than that waiter at its old priority; not deferred, it
    ignores a waiter in the fair range, as a renice does.
   */
  predicate SetLoses(t: Task, a: Attr, v: Verdict) {
    && Accepted(t, a, v) && t.waiter.Some?
    && if CheckPrio(t, NewPrio(a)) then t.normalPrio < t.waiter.value && PolicyOf(t, a) != Deadline
       else FairPolicy(PolicyOf(t, a)) && t.waiter.value < NiceToPrio(a.nice)
  }

  lemma SetKeepsBoostIff(t: Task, a: Attr, v: Verdict)
    requires Agrees(t) && Inherits(t)
    ensures Inherits(SetScheduler(t, a, v).1) <==> !SetLoses(t, a, v)
  {
    if Accepted(t, a, v) { SetResult(t, a, v); }
  }

  /** Priority, normal priority and waiter after an accepted change. */
  lemma SetResult(t: Task, a: Attr, v: Verdict)
    requires Accepted(t, a, v)
    ensures var t', n := SetScheduler(t, a, v).1, SetParams(t, a).normalPrio;
      && t'.waiter == t.waiter && t'.normalPrio == n
      && t'.prio == if CheckPrio(t, NewPrio(a)) then t.prio else n
  {
  }

  /** Normalizing loses every boost of a real-time or deadline task, and of a reniced one as renicing does. */
  predicate NormalizeLoses(t: Task) {
    if t.prio < MAX_RT_PRIO then t.waiter.Some? && t.waiter.value < DEFAULT_PRIO
    else t.staticPrio < DEFAULT_PRIO && ReniceLoses(t, 0)
  }

  lemma NormalizeKeepsBoostIff(t: Task)
    requires Agrees(t) && Inherits(t)
    ensures Inherits(Normalize(t)) <==> !NormalizeLoses(t)
  {
    ReniceKeepsBoostIff(t, 0);
  }

  const NICE_10: Attr := Attr(Given(Normal), 10, 0, true, true, false)
  const NICE_0: Attr := Attr(Given(Normal), 0, 0, true, true, false)
  const GRANTED: Verdict := Verdict(true, true, false)

  /** A task boosted to 110 runs at 125 once it is reniced to 5, and at 130 after a change to nice 10. */
  lemma FairBoostLost(t: Task)
    requires t == SetWaiter(INIT_TASK, Some(110))
    ensures Agrees(t) && Inherits(t)
    ensures SetUserNice(t, 5).prio == 125 && GetPrio(SetUserNice(t, 5)) == 110
    ensures SetScheduler(t, NICE_10, GRANTED).1.prio == 130 && GetPrio(SetScheduler(t, NICE_10, GRANTED).1) == 110
  {
  }

  /** A deadline task with a waiter at 50 that becomes an ordinary one stays in the deadline class. */
  lemma DeadlineStays(t: Task)
    requires t == Task(Deadline, 0, DEFAULT_PRIO, -1, -1, Dl, false, {}, false, Some(50))
    ensures Agrees(t) && Inherits(t)
    ensures var t' := SetScheduler(t, NICE_0, GRANTED).1; t'.prio == -1 && t'.cls == Dl && GetPrio(t') == 50
  {
  }

  /** A task boosted to 50 runs at 120 once it is normalized. */
  lemma NormalizedBoostLost(t: Task)
    requires t == SetWaiter(INIT_TASK, Some(50))
    ensures Agrees(t) && Inherits(t)
    ensures Normalize(t).prio == DEFAULT_PRIO && GetPrio(Normalize(t)) == 50
  {
  }

  /** The steps that lose a boost. */
  predicate Loses(s: Tasks, op: Op)
    requires Enabled(s, op)
  {
    match op
    case OpNice(i, nice) => ReniceLoses(s[i].value, nice)
    case OpSet(i, a, v) => SetLoses(s[i].value, a, v)
    case OpNormalize(i) => NormalizeLoses(s[i].value)
    case _ => false
  }

  predicate AllInherit(s: Tasks) {
    forall i :: 0 <= i < |s| && s[i].Some? ==> Inherits(s[i].value)
  }

  /** A step keeps every task at its inherited priority exactly when it is not one of these. */
  lemma StepKeepsBoostsIff(s: Tasks, op: Op)
    requires AllAgree(s) && AllInherit(s) && Enabled(s, op)
    ensures AllInherit(Do(s, op)) <==> !Loses(s, op)
  {
    if op.OpFork? {
      ForkAgrees(s[op.parent].value);
    } else {
      ApplyKeepsBoostIff(s, op, s[op.i].value);
      assert Do(s, op)[op.i].value == Apply(s[op.i].value, op);
    }
  }

  lemma ApplyKeepsBoostIff(s: Tasks, op: Op, t: Task)
    requires Enabled(s, op) && !op.OpFork? && t == s[op.i].value && Agrees(t) && Inherits(t)
    ensures Inherits(Apply(t, op)) <==> !Loses(s, op)
  {
    match op
    case OpNice(_, nice) => ReniceKeepsBoostIff(t, nice);
    case OpSet(_, a, v) => SetKeepsBoostIff(t, a, v);
    case OpWaiter(_, waiter) => SetWaiterAgrees(t, waiter);
    case OpNormalize(_) => NormalizeKeepsBoostIff(t);
    case OpActivate(_) =>
    case OpDeactivate(_) =>
  }

  ghost predicate NextKeeping(s: Tasks, s': Tasks) {
    exists op :: Enabled(s, op) && s' == Do(s, op) && !Loses(s, op)
  }

  /** Over every run without a losing step each task runs at the more urgent of its own and its waiter's priority. */
  lemma BoostsAreKept(r: seq<Tasks>, k: nat, i: nat)
    requires IsRun(Init, NextKeeping, r) && k < |r| && IsTask(r[k], i)
    ensures r[k][i].value.prio == GetPrio(r[k][i].value)
  {
    forall s: Tasks, s': Tasks | AllAgree(s) && AllInherit(s) && NextKeeping(s, s')
      ensures AllAgree(s') && AllInherit(s')
    {
      var op :| Enabled(s, op) && s' == Do(s, op) && !Loses(s, op);
      StepAgrees(s, op);
      StepKeepsBoostsIff(s, op);
    }
    RunInvariant(Init, NextKeeping, s => AllAgree(s) && AllInherit(s), r, k);
  }

  // ---------------------------------------------------------------- what the operations carry out

  const FAIR: set<Policy> := {Normal, Batch, IdlePolicy}
  const REAL_TIME: set<Policy> := {Fifo, RoundRobin}

  /** The call asks that the task's policy be p. */
  predicate Asks(t: Task, a: Attr, p: Policy) {
    a.policy == Given(p) || (a.policy == Keep && t.policy == p)
  }

  /** No policy, flag or priority that the call could give a task. */
  predicate Invalid(t: Task, a: Attr) {
    || a.policy == Unknown || !a.flagsOk || a.priority > 99
    || (Asks(t, a, Deadline) && !a.dlOk)
    || (a.priority != 0 && !(Asks(t, a, Fifo) || Asks(t, a, RoundRobin)))
    || (a.priority == 0 && (Asks(t, a, Fifo) || Asks(t, a, RoundRobin)))
  }

  /** The task has the policy and its parameter already; a deadline task is always changed. */
  predicate HasAlready(t: Task, a: Attr) {
    && Asks(t, a, t.policy) && t.policy != Deadline
    && (t.policy in FAIR ==> t.staticPrio == 120 + a.nice)
    && (t.policy in REAL_TIME ==> t.rtPriority == a.priority)
  }

  /** Each error of the call, and that a refused call changes nothing. */
  lemma SetRefusedIff(t: Task, a: Attr, v: Verdict)
    ensures var (err, t') := SetScheduler(t, a, v);
      && (err == EINVAL <==> Invalid(t, a))
      && (err == EPERM <==> !Invalid(t, a) && (!v.permitted || (!HasAlready(t, a) && !v.admitted)))
      && (err == EBUSY <==> !Invalid(t, a) && v.permitted && !HasAlready(t, a) && v.admitted
                            && (Asks(t, a, Deadline) || t.prio < 0) && v.dlOverflow)
      && (err in {0, EINVAL, EPERM, EBUSY}) && (err != 0 ==> t' == t)
  {
    assert a.policy != Unknown ==> (NothingToChange(t, a) <==> HasAlready(t, a));
  }

  /** An accepted call leaves the task with the policy, the parameters and the flag it asks for. */
  lemma SetIsCarriedOut(t: Task, a: Attr, v: Verdict)
    requires Agrees(t)
    ensures var (err, t') := SetScheduler(t, a, v);
      err == 0 ==>
        && Asks(t, a, t'.policy) && t'.rtPriority == a.priority
        && t'.staticPrio == (if t'.policy in FAIR then 120 + a.nice else t.staticPrio)
        && t'.resetOnFork == (if a.policy == Keep then t.resetOnFork else a.resetOnFork)
        && t'.onRq == t.onRq && t'.waiter == t.waiter
        && (HasAlready(t, a) ==> t' == t.(resetOnFork := t'.resetOnFork))
  {
  }

  /** It runs at the new priority at once, unless a waiter at least as urgent keeps it where it is. */
  lemma SetMovesOrWaits(t: Task, a: Attr, v: Verdict)
    requires Agrees(t) && SetScheduler(t, a, v).0 == 0 && !HasAlready(t, a)
    ensures var t', asked := SetScheduler(t, a, v).1, if a.policy == Given(Deadline) then -1 else 99 - a.priority;
      if t.waiter.Some? && t.waiter.value <= asked
      then t'.prio == t.prio && t'.cls == t.cls && t'.queues == t.queues
      else HasOwnPriority(t', t'.prio) && ClassFitsPriority(t') && t'.queues == (if t.onRq then {t'.cls} else {})
  {
    SetSchedulerAgrees(t, a, v);
  }

  /** A renice stores the nice value whatever the policy; only a fair task at a fair priority moves. */
  lemma ReniceIsCarriedOut(t: Task, nice: Nice)
    requires Agrees(t)
    ensures var t' := SetUserNice(t, nice);
      && t'.staticPrio == 120 + nice && SameBase(t', t.(staticPrio := 120 + nice)) && HasOwnPriority(t', t'.normalPrio)
      && t'.prio == (if t.policy in FAIR && t.prio >= 100 && t.staticPrio != 120 + nice then 120 + nice else t.prio)
  {
    SetUserNiceAgrees(t, nice);
  }

  /** With its waiters changed a task runs at the more urgent of its own priority and the top waiter's. */
  lemma SetWaiterIsCarriedOut(t: Task, waiter: Option<Prio>)
    requires Agrees(t)
    ensures var t' := SetWaiter(t, waiter);
      && SameBase(t', t.(waiter := waiter)) && HasOwnPriority(t', t'.normalPrio) && ClassFitsPriority(t')
      && t'.prio <= t'.normalPrio && (waiter.Some? ==> t'.prio <= waiter.value)
      && (t'.prio == t'.normalPrio || waiter == Some(t'.prio))
  {
    SetWaiterAgrees(t, waiter);
  }

  /** What the child inherits: with the reset flag, neither a real-time policy nor a negative nice value. */
  lemma ForkIsCarriedOut(t: Task)
    requires Agrees(t) && SchedFork(t).Some?
    ensures var c := SchedFork(t).value;
      && !c.onRq && c.queues == {} && c.waiter == None && !c.resetOnFork
      && HasOwnPriority(c, c.prio) && ClassFitsPriority(c)
      && (!t.resetOnFork ==> c.policy == t.policy && c.staticPrio == t.staticPrio && c.rtPriority == t.rtPriority)
      && (t.resetOnFork && t.policy !in FAIR ==> c.policy == Normal && c.staticPrio == 120)
      && (t.resetOnFork && t.policy in FAIR ==>
          c.policy == t.policy && c.staticPrio == if t.staticPrio < 120 then 120 else t.staticPrio)
  {
    ForkAgrees(t);
  }

  /** Normalizing makes a task at a real-time or deadline priority ordinary, and takes away a negative nice value. */
  lemma NormalizeIsCarriedOut(t: Task)
    requires Agrees(t)
    ensures var t' := Normalize(t);
      && t'.onRq == t.onRq && t'.waiter == t.waiter && t'.resetOnFork == t.resetOnFork
      && (t.prio < 100 ==> t'.policy == Normal && t'.staticPrio == t'.prio == 120)
      && (t.prio >= 100 ==> t'.policy == t.policy && t'.rtPriority == t.rtPriority)
      && (t.prio >= 100 ==> t'.staticPrio == if t.staticPrio < 120 then 120 else t.staticPrio)
  {
    if t.prio >= 100 && t.staticPrio < 120 { ReniceIsCarriedOut(t, 0); }
  }

  /** Activating queues the task, deactivating takes it off, and neither changes anything else. */
  lemma ActivateIsCarriedOut(t: Task)
    requires Agrees(t)
    ensures Activate(t) == t.(onRq := true, queues := {t.cls}) && Deactivate(t) == t.(onRq := false, queues := {})
  {
  }

  // ---------------------------------------------------------------- the deferred change of a boosted task

  /** What an unboosted task is made of; the rest follows. */
  predicate SameBase(x: Task, y: Task) {
    && x.policy == y.policy && x.rtPriority == y.rtPriority && x.staticPrio == y.staticPrio
    && x.onRq == y.onRq && x.resetOnFork == y.resetOnFork && x.waiter == y.waiter
  }

  lemma BaseDetermines(x: Task, y: Task)
    requires Agrees(x) && Agrees(y) && SameBase(x, y) && x.waiter.None?
    ensures x == y
  {
  }

  lemma SetWaiterBase(t: Task, waiter: Option<Prio>)
    ensures SameBase(SetWaiter(t, waiter), t.(waiter := waiter))
  {
  }

  lemma ParamsBase(t: Task, u: Task, a: Attr)
    requires SameBase(t.(waiter := u.waiter), u) && !a.policy.Unknown?
    ensures SameBase(SetParams(t, a).(waiter := u.waiter), SetParams(u, a))
    ensures SameBase(Requeued(u, x => SetBoth(x, a)), SetParams(u, a))
  {
  }

  lemma SameChecks(t: Task, u: Task, a: Attr)
    requires SameBase(t.(waiter := u.waiter), u)
    ensures Malformed(t, a) == Malformed(u, a) && ResetFlag(t, a) == ResetFlag(u, a)
    ensures !a.policy.Unknown? ==> NothingToChange(t, a) == NothingToChange(u, a)
  {
  }

  /** The base of the result and the verdict do not depend on the boost, unless bandwidth is short. */
  lemma SetSchedulerBase(t: Task, u: Task, a: Attr, v: Verdict)
    requires SameBase(t.(waiter := u.waiter), u) && !v.dlOverflow && CheckPrio(t, NewPrio(a)) && u.waiter.None?
    ensures SetScheduler(t, a, v).0 == SetScheduler(u, a, v).0
    ensures SameBase(SetScheduler(t, a, v).1.(waiter := u.waiter), SetScheduler(u, a, v).1)
  {
    SameChecks(t, u, a);
    if !Malformed(t, a) {
      ParamsBase(t.(resetOnFork := ResetFlag(t, a)), u.(resetOnFork := ResetFlag(u, a)), a);
    }
  }

  /** Storing the parameters of a boosted task and applying them when the boost ends is the same as changing it then. */
  lemma DeferredChangeIsTheSame(t: Task, a: Attr, v: Verdict)
    requires Agrees(t) && CheckPrio(t, NewPrio(a)) && !v.dlOverflow
    ensures var (err, boosted) := SetScheduler(t, a, v);
      SetScheduler(SetWaiter(t, None), a, v) == (err, SetWaiter(boosted, None))
  {
    var u := SetWaiter(t, None);
    var (err, boosted) := SetScheduler(t, a, v);
    var (err1, later) := SetScheduler(u, a, v);
    SetWaiterAgrees(t, None);
    SetWaiterBase(t, None);
    SetSchedulerBase(t, u, a, v);
    SetSchedulerAgrees(u, a, v);
    SetSchedulerAgrees(t, a, v);
    SetWaiterAgrees(boosted, None);
    SetWaiterBase(boosted, None);
    BaseDetermines(later, SetWaiter(boosted, None));
  }

  // ---------------------------------------------------------------- the task, updated in place

  class TaskStruct {
    var policy: Policy
    var rtPriority: int
    var staticPrio: int
    var normalPrio: int
    var prio: int
    var cls: Class
    var onRq: bool
    var queues: set<Class>
    var resetOnFork: bool
    var waiter: Option<Prio>

    function View(): Task
      reads this
    {
      Task(policy, rtPriority, staticPrio, normalPrio, prio, cls, onRq, queues, resetOnFork, waiter)
    }

    constructor ()
      ensures View() == INIT_TASK
    {
      policy, rtPriority, staticPrio, normalPrio, prio := Normal, 0, DEFAULT_PRIO, DEFAULT_PRIO, DEFAULT_PRIO;
      cls, onRq, queues, resetOnFork, waiter := Fair, false, {}, false, None;
    }

    method DequeueTask()
      modifies this`queues
      ensures View() == Dequeued(old(View()))
    {
      queues := queues - {cls};
    }

    method EnqueueTask()
      modifies this`queues
      ensures View() == Enqueued(old(View()))
    {
      queues := queues + {cls};
    }

    method SetSchedulerParams(a: Attr)
      requires !a.policy.Unknown?
      modifies this
      ensures View() == SetParams(old(View()), a)
    {
      policy := PolicyOf(View(), a);
      if FairPolicy(policy) { staticPrio := NiceToPrio(a.nice); }
      rtPriority := a.priority;
      normalPrio := NormalPrio(View());
    }

    method SetSchedulerBoth(a: Attr)
      requires !a.policy.Unknown?
      modifies this
      ensures View() == SetBoth(old(View()), a)
    {
      SetSchedulerParams(a);
      prio := NormalPrio(View());
      cls := if prio < 0 then Dl else if prio < MAX_RT_PRIO then Rt else Fair;
    }

    /** __sched_setscheduler */
    method SetSched(a: Attr, v: Verdict) returns (err: int)
      modifies this
      ensures (err, View()) == SetScheduler(old(View()), a, v)
    {
      if Malformed(View(), a) { return EINVAL; }
      if !v.permitted { return EPERM; }
      var flag := ResetFlag(View(), a);
      if NothingToChange(View(), a) {
        resetOnFork := flag;
        return 0;
      }
      if !v.admitted { return EPERM; }
      if (PolicyOf(View(), a) == Deadline || prio < 0) && v.dlOverflow { return EBUSY; }
      resetOnFork := flag;
      if CheckPrio(View(), NewPrio(a)) {
        SetSchedulerParams(a);
        return 0;
      }
      if onRq { DequeueTask(); }
      SetSchedulerBoth(a);
      if onRq { EnqueueTask(); }
      return 0;
    }

    method Renice(nice: Nice)
      modifies this
      ensures View() == SetUserNice(old(View()), nice)
    {
      if staticPrio == NiceToPrio(nice) { return; }
      if policy == Deadline || RtPolicy(policy) {
        staticPrio := NiceToPrio(nice);
        return;
      }
      if onRq { DequeueTask(); }
      staticPrio := NiceToPrio(nice);
      normalPrio := NormalPrio(View());
      if prio >= MAX_RT_PRIO { prio := normalPrio; }
      if onRq { EnqueueTask(); }
    }

    /** rt_mutex_setprio */
    method SetPrio(newPrio: int)
      modifies this
      ensures View() == Requeued(old(View()), x => Reclassed(x, newPrio))
    {
      if onRq { DequeueTask(); }
      cls := ClassOf(newPrio);
      prio := newPrio;
      if onRq { EnqueueTask(); }
    }

    /** The rt_mutex code after a change of the waiters. */
    method Adjust(top: Option<Prio>)
      modifies this
      ensures View() == SetWaiter(old(View()), top)
    {
      waiter := top;
      if GetPrio(View()) != prio { SetPrio(GetPrio(View())); }
    }

    method NormalizeRt()
      modifies this
      ensures View() == Normalize(old(View()))
    {
      if prio >= MAX_RT_PRIO {
        if staticPrio < DEFAULT_PRIO { Renice(0); }
        return;
      }
      if onRq { DequeueTask(); }
      SetSchedulerBoth(Attr(Given(Normal), 0, 0, true, true, false));
      if onRq { EnqueueTask(); }
    }
  }
}
