/**
  The run-queue locking, migration and wakeup protocol of assg4/core.c as interleaved
  atomic steps under sequential consistency, over any number of CPUs, tasks and threads.

  A step touches shared data that is not protected by a lock the actor holds at most
  once, so every interleaving that unlocked readers can observe is a run of this model.
 */
module RunQueueProtocol {
  import opened Basics

  // ---------------------------------------------------------------- the state

  datatype RunState = Running | Interruptible | Uninterruptible | Waking
  datatype OnRq = Off | Queued | Migrating
  datatype Owner = Free | Thread(id: nat) | Scheduler(cpu: nat)

  /** Who is responsible for a task: an auxiliary record of the last step that moved it. */
  datatype Place =
    | OnQueue
    | Asleep
    | Moving(id: nat)    // between dequeue and enqueue of move_queued_task
    | Taken(id: nat)     // made TASK_WAKING by a waker that has not queued it yet
    | Listed(cpu: nat)   // on a wake_list
    | Draining(id: nat)  // taken off a wake_list, not activated yet
    | Started(id: nat)   // activated, state not yet TASK_RUNNING

  /** `remoteQueued` and `remoteActivated` count llist_add and drain activations. */
  datatype Task = Task(
    state: RunState, frozen: bool, onRq: OnRq, onCpu: bool, cpu: nat, contrib: bool,
    remoteQueued: nat, remoteActivated: nat, at: Place)

  /** Where CPU-local __schedule() stands. */
  datatype SchedPc =
    | SOut | SLocked | SDeact
    | SLocalPi(w: nat) | SLocalRq(w: nat) | SLocal(w: nat)   // try_to_wake_up_local
    | SPick | SSwitch(prev: nat)

  datatype Cpu = Cpu(
    queue: multiset<nat>, curr: nat, idle: nat, sched: SchedPc, nrUnint: int,
    wakeList: seq<nat>, ipi: bool, polling: bool, needResched: bool)

  /** The program points of a thread that runs one of the modelled functions. */
  datatype Pc =
    | Idle
    // task_rq_lock and __migrate_task
    | TPi(p: nat) | TRead(p: nat, c: nat) | TLocked(p: nat, c: nat) | THold(p: nat, c: nat)
    // a caller that holds only a rq lock
    | RqHeld(c: nat)
    // move_queued_task; `pi` says whether the caller also holds p's pi_lock
    | MDeq(p: nat, c: nat, dst: nat, pi: bool) | MSet(p: nat, c: nat, dst: nat, pi: bool)
    | MUnl(p: nat, dst: nat, pi: bool) | MRe(p: nat, dst: nat, pi: bool) | MDone(p: nat, dst: nat, pi: bool)
    // migrate_swap_stop
    | SwapHeld(p: nat, q: nat, c: nat, d: nat) | SwapOne(p: nat, q: nat, c: nat, d: nat)
    | SwapTwo(p: nat, q: nat, c: nat, d: nat) | SwapDone(p: nat, q: nat, c: nat, d: nat)
    // try_to_wake_up
    | WPi(p: nat, mask: set<RunState>) | WTest(p: nat) | WRead(p: nat) | WLock(p: nat, c: nat)
    | WLocked(p: nat, c: nat) | WRemote(p: nat, c: nat) | WSpin(p: nat) | WSpun(p: nat)
    | WPlace(p: nat) | WQueue(p: nat, c: nat) | WAct(p: nat, c: nat) | WWake(p: nat, c: nat)
    | WKick(p: nat, c: nat) | WIpi(p: nat, c: nat) | WOut(p: nat)
    // scheduler_ipi and sched_ttwu_pending
    | DTest(c: nat) | DStart(c: nat) | DLock(c: nat, l: seq<nat>) | DLoop(c: nat, l: seq<nat>)
    | DWake(p: nat, c: nat, l: seq<nat>)

  datatype State = State(
    allowed: seq<set<nat>>, tasks: seq<Task>, cpus: seq<Cpu>,
    pi: seq<Owner>, rq: seq<Owner>, thr: seq<Pc>)

  // ---------------------------------------------------------------- locks

  predicate HoldsRq(pc: Pc, c: nat) {
    match pc
    case TLocked(_, x) => x == c
    case THold(_, x) => x == c
    case RqHeld(x) => x == c
    case MDeq(_, x, _, _) => x == c
    case MSet(_, x, _, _) => x == c
    case MRe(_, x, _) => x == c
    case MDone(_, x, _) => x == c
    case SwapHeld(_, _, x, y) => x == c || y == c
    case SwapOne(_, _, x, y) => x == c || y == c
    case SwapTwo(_, _, x, y) => x == c || y == c
    case SwapDone(_, _, x, y) => x == c || y == c
    case WLocked(_, x) => x == c
    case WRemote(_, x) => x == c
    case WAct(_, x) => x == c
    case WWake(_, x) => x == c
    case DLoop(x, _) => x == c
    case DWake(_, x, _) => x == c
    case _ => false
  }

  predicate HoldsPi(pc: Pc, t: nat) {
    match pc
    case TPi(p) => p == t
    case TRead(p, _) => p == t
    case TLocked(p, _) => p == t
    case THold(p, _) => p == t
    case MDeq(p, _, _, b) => b && p == t
    case MSet(p, _, _, b) => b && p == t
    case MUnl(p, _, b) => b && p == t
    case MRe(p, _, b) => b && p == t
    case MDone(p, _, b) => b && p == t
    case SwapHeld(p, q, _, _) => p == t || q == t
    case SwapOne(p, q, _, _) => p == t || q == t
    case SwapTwo(p, q, _, _) => p == t || q == t
    case SwapDone(p, q, _, _) => p == t || q == t
    case WPi(p, _) => p == t
    case WTest(p) => p == t
    case WRead(p) => p == t
    case WLock(p, _) => p == t
    case WLocked(p, _) => p == t
    case WRemote(p, _) => p == t
    case WSpin(p) => p == t
    case WSpun(p) => p == t
    case WPlace(p) => p == t
    case WQueue(p, _) => p == t
    case WAct(p, _) => p == t
    case WWake(p, _) => p == t
    case WKick(p, _) => p == t
    case WIpi(p, _) => p == t
    case WOut(p) => p == t
    case _ => false
  }

  predicate SchedHoldsRq(sp: SchedPc) {
    !sp.SOut? && !sp.SLocalPi? && !sp.SLocalRq?
  }

  predicate SchedHoldsPi(sp: SchedPc, t: nat) {
    (sp.SLocalRq? || sp.SLocal?) && sp.w == t
  }

  /** Every task and CPU a program point names exists. */
  predicate InRange(pc: Pc, nt: nat, nc: nat) {
    match pc
    case Idle => true
    case RqHeld(c) => c < nc
    case DTest(c) => c < nc
    case DStart(c) => c < nc
    case DLock(c, l) => c < nc && forall k :: 0 <= k < |l| ==> l[k] < nt
    case DLoop(c, l) => c < nc && forall k :: 0 <= k < |l| ==> l[k] < nt
    case DWake(p, c, l) => p < nt && c < nc && forall k :: 0 <= k < |l| ==> l[k] < nt
    case MDeq(p, c, dst, _) => p < nt && c < nc && dst < nc
    case MSet(p, c, dst, _) => p < nt && c < nc && dst < nc
    case MUnl(p, dst, _) => p < nt && dst < nc
    case MRe(p, dst, _) => p < nt && dst < nc
    case MDone(p, dst, _) => p < nt && dst < nc
    case SwapHeld(p, q, c, d) => p < nt && q < nt && p != q && c < nc && d < nc && c != d
    case SwapOne(p, q, c, d) => p < nt && q < nt && p != q && c < nc && d < nc && c != d
    case SwapTwo(p, q, c, d) => p < nt && q < nt && p != q && c < nc && d < nc && c != d
    case SwapDone(p, q, c, d) => p < nt && q < nt && p != q && c < nc && d < nc && c != d
    case TRead(p, c) => p < nt && c < nc
    case TLocked(p, c) => p < nt && c < nc
    case THold(p, c) => p < nt && c < nc
    case WLock(p, c) => p < nt && c < nc
    case WLocked(p, c) => p < nt && c < nc
    case WRemote(p, c) => p < nt && c < nc
    case WQueue(p, c) => p < nt && c < nc
    case WAct(p, c) => p < nt && c < nc
    case WWake(p, c) => p < nt && c < nc
    case WKick(p, c) => p < nt && c < nc
    case WIpi(p, c) => p < nt && c < nc
    case _ => pc.p < nt
  }

  predicate SchedInRange(cpu: Cpu, nt: nat) {
    cpu.curr < nt && cpu.idle < nt &&
    match cpu.sched
    case SLocalPi(w) => w < nt
    case SLocalRq(w) => w < nt
    case SLocal(w) => w < nt
    case SSwitch(p) => p < nt
    case _ => true
  }

  ghost predicate Shape(s: State) {
    && |s.allowed| == |s.tasks| == |s.pi| && |s.cpus| == |s.rq|
    && (forall i :: 0 <= i < |s.thr| ==> InRange(s.thr[i], |s.tasks|, |s.cpus|))
    && (forall c :: 0 <= c < |s.cpus| ==> SchedInRange(s.cpus[c], |s.tasks|))
    && (forall t :: 0 <= t < |s.tasks| ==> s.tasks[t].cpu < |s.cpus|)
    && (forall c, k :: 0 <= c < |s.cpus| && 0 <= k < |s.cpus[c].wakeList| ==> s.cpus[c].wakeList[k] < |s.tasks|)
  }

  predicate SameSizes(s: State, s': State) {
    && |s'.allowed| == |s.allowed| && |s'.tasks| == |s.tasks| && |s'.cpus| == |s.cpus|
    && |s'.pi| == |s.pi| && |s'.rq| == |s.rq| && |s'.thr| == |s.thr|
  }

  /** Thread i moves to `pc`: it takes the locks held there and drops the others. */
  function SetPc(s: State, i: nat, pc: Pc): State
    requires i < |s.thr|
  {
    s.(thr := s.thr[i := pc],
       rq := seq(|s.rq|, c requires 0 <= c < |s.rq| =>
         if HoldsRq(pc, c) then Thread(i) else if HoldsRq(s.thr[i], c) then Free else s.rq[c]),
       pi := seq(|s.pi|, t requires 0 <= t < |s.pi| =>
         if HoldsPi(pc, t) then Thread(i) else if HoldsPi(s.thr[i], t) then Free else s.pi[t]))
  }

  function SetTask(s: State, t: nat, x: Task): State
    requires t < |s.tasks|
  {
    s.(tasks := s.tasks[t := x])
  }

  /** CPU c's record changes; its scheduler takes and drops locks as its program point says. */
  function SetCpu(s: State, c: nat, x: Cpu): State
    requires c < |s.cpus| == |s.rq|
  {
    var was := s.cpus[c].sched;
    s.(cpus := s.cpus[c := x],
       rq := if SchedHoldsRq(x.sched) then s.rq[c := Scheduler(c)]
             else if SchedHoldsRq(was) then s.rq[c := Free] else s.rq,
       pi := seq(|s.pi|, t requires 0 <= t < |s.pi| =>
         if SchedHoldsPi(x.sched, t) then Scheduler(c)
         else if SchedHoldsPi(was, t) then Free else s.pi[t]))
  }

  // ---------------------------------------------------------------- the steps

  datatype Act =
    | Go                                   // the only move of this program point
    | TaskRqLock(p: nat) | MigrateFrom(c: nat) | RqLock(c: nat) | Unlock | Move(p: nat, dst: nat)
    | Swap(p: nat, q: nat, c: nat, d: nat)
    | Wake(p: nat, mask: set<RunState>) | PlaceOn(c: nat) | QueueRemote | QueueLocal
    | Drain(c: nat) | Ipi(c: nat) | IdleExit(c: nat)

  datatype SchedAct =
    | SetState(st: RunState, frozen: bool) | Lock | Preempted | Signal | Deactivate
    | NoLocal | WakeLocal(w: nat) | SGo | Pick(next: nat)
    | Poll | Unpoll | Resched

  /** task_contributes_to_load(): uninterruptible and not frozen. */
  function Load(t: Task): int {
    if t.state.Uninterruptible? && !t.frozen then 1 else 0
  }

  function AddLoad(c: Cpu, n: int): Cpu {
    c.(nrUnint := c.nrUnint + n)
  }

  /** What move_queued_task asks of p: queued here, not running, and allowed on dst. */
  predicate Movable(s: State, p: nat, c: nat, dst: nat)
    requires Shape(s)
  {
    && p < |s.tasks| && c < |s.cpus| && dst < |s.cpus| && dst != c && dst in s.allowed[p]
    && s.tasks[p].cpu == c && s.tasks[p].onRq.Queued? && !s.tasks[p].onCpu
  }

  /** dequeue_task and on_rq = TASK_ON_RQ_MIGRATING. */
  function DequeueForMove(s: State, i: nat, p: nat, c: nat, dst: nat, pi: bool): State
    requires Shape(s) && i < |s.thr| && Movable(s, p, c, dst)
  {
    var s1 := SetTask(s, p, s.tasks[p].(onRq := Migrating, at := Moving(i)));
    var s2 := s1.(cpus := s1.cpus[c := s1.cpus[c].(queue := s1.cpus[c].queue - multiset{p})]);
    SetPc(s2, i, MDeq(p, c, dst, pi))
  }

  /** task_rq_lock, __migrate_task and move_queued_task. */
  function LockStep(s: State, i: nat, a: Act): (r: Option<State>)
    requires Shape(s) && i < |s.thr|
    ensures r.Some? ==> SameSizes(s, r.value)
  {
    match s.thr[i]
    case Idle => (
      match a
      case TaskRqLock(p) =>
        if p < |s.tasks| && s.pi[p].Free? then Some(SetPc(s, i, TPi(p))) else None
      case RqLock(c) =>
        if c < |s.cpus| && s.rq[c].Free? then Some(SetPc(s, i, RqHeld(c))) else None
      case _ => None)
    case TPi(p) => (
      match a
      case Go => Some(SetPc(s, i, TRead(p, s.tasks[p].cpu)))
      case MigrateFrom(c) => if c < |s.cpus| then Some(SetPc(s, i, TRead(p, c))) else None
      case _ => None)
    case TRead(p, c) =>
      if s.rq[c].Free? then Some(SetPc(s, i, TLocked(p, c))) else None
    case TLocked(p, c) =>
      if s.tasks[p].cpu == c && !s.tasks[p].onRq.Migrating? then Some(SetPc(s, i, THold(p, c)))
      else Some(SetPc(s, i, Idle))
    case THold(p, c) => (
      match a
      case Unlock => Some(SetPc(s, i, Idle))
      case Move(q, dst) =>
        if q == p && Movable(s, p, c, dst) then Some(DequeueForMove(s, i, p, c, dst, true)) else None
      case _ => None)
    case RqHeld(c) => (
      match a
      case Unlock => Some(SetPc(s, i, Idle))
      case Move(p, dst) =>
        if Movable(s, p, c, dst) then Some(DequeueForMove(s, i, p, c, dst, false)) else None
      case _ => None)
    case MDeq(p, c, dst, b) =>
      Some(SetPc(SetTask(s, p, s.tasks[p].(cpu := dst)), i, MSet(p, c, dst, b)))
    case MSet(p, c, dst, b) => Some(SetPc(s, i, MUnl(p, dst, b)))
    case MUnl(p, dst, b) =>
      if s.rq[dst].Free? then Some(SetPc(s, i, MRe(p, dst, b))) else None
    case MRe(p, dst, b) =>
      var s1 := SetTask(s, p, s.tasks[p].(onRq := Queued, at := OnQueue));
      var s2 := s1.(cpus := s1.cpus[dst := s1.cpus[dst].(queue := s1.cpus[dst].queue + multiset{p})]);
      Some(SetPc(s2, i, MDone(p, dst, b)))
    case MDone(p, dst, b) => Some(SetPc(s, i, Idle))
    case _ => None
  }

  /** __migrate_swap_task: a queued task goes from rq c to rq d; the others only get a hint. */
  function SwapTask(s: State, p: nat, c: nat, d: nat): State
    requires Shape(s) && p < |s.tasks| && c < |s.cpus| && d < |s.cpus| && c != d
  {
    var t := s.tasks[p];
    if !t.onRq.Queued? then s
    else
      var src := AddLoad(s.cpus[c].(queue := s.cpus[c].queue - multiset{p}), Load(t));
      var dst := AddLoad(s.cpus[d].(queue := s.cpus[d].queue + multiset{p}), -Load(t));
      s.(tasks := s.tasks[p := t.(cpu := d)], cpus := s.cpus[c := src][d := dst])
  }

  /** migrate_swap_stop; the stoppers that run it keep both tasks off their CPUs. */
  function SwapStep(s: State, i: nat, a: Act): (r: Option<State>)
    requires Shape(s) && i < |s.thr|
    ensures r.Some? ==> SameSizes(s, r.value)
  {
    match s.thr[i]
    case Idle =>
      if a.Swap? && a.p < |s.tasks| && a.q < |s.tasks| && a.p != a.q && a.c < |s.cpus| && a.d < |s.cpus| && a.c != a.d
        && s.pi[a.p].Free? && s.pi[a.q].Free? && s.rq[a.c].Free? && s.rq[a.d].Free?
      then Some(SetPc(s, i, SwapHeld(a.p, a.q, a.c, a.d))) else None
    case SwapHeld(p, q, c, d) =>
      if s.tasks[q].cpu == d && s.tasks[p].cpu == c && d in s.allowed[p] && c in s.allowed[q]
      then Some(SetPc(s, i, SwapOne(p, q, c, d))) else Some(SetPc(s, i, SwapDone(p, q, c, d)))
    case SwapOne(p, q, c, d) =>
      if s.tasks[p].onCpu then None else Some(SetPc(SwapTask(s, p, c, d), i, SwapTwo(p, q, c, d)))
    case SwapTwo(p, q, c, d) =>
      if s.tasks[q].onCpu then None else Some(SetPc(SwapTask(s, q, d, c), i, SwapDone(p, q, c, d)))
    case SwapDone(p, q, c, d) => Some(SetPc(s, i, Idle))
    case _ => None
  }

  /** ttwu_do_activate up to on_rq = TASK_ON_RQ_QUEUED. */
  function Activate(s: State, p: nat, c: nat, i: nat): State
    requires Shape(s) && p < |s.tasks| && c < |s.cpus|
  {
    var t := s.tasks[p];
    var n := (if t.contrib then 1 else 0) + Load(t);
    s.(tasks := s.tasks[p := t.(onRq := Queued, at := Started(i))],
       cpus := s.cpus[c := AddLoad(s.cpus[c].(queue := s.cpus[c].queue + multiset{p}), -n)])
  }

  /** ttwu_do_wakeup: state = TASK_RUNNING. */
  function SetRunning(s: State, p: nat): State
    requires p < |s.tasks|
  {
    SetTask(s, p, s.tasks[p].(state := Running, at := OnQueue))
  }

  /** try_to_wake_up with ttwu_remote, __task_rq_lock, ttwu_queue and ttwu_queue_remote. */
  function WakeStep(s: State, i: nat, a: Act): (r: Option<State>)
    requires Shape(s) && i < |s.thr|
    ensures r.Some? ==> SameSizes(s, r.value)
  {
    match s.thr[i]
    case Idle =>
      if a.Wake? && a.p < |s.tasks| && s.pi[a.p].Free? && Running !in a.mask && Waking !in a.mask
      then Some(SetPc(s, i, WPi(a.p, a.mask))) else None
    case WPi(p, mask) =>
      if s.tasks[p].state in mask then Some(SetPc(s, i, WTest(p))) else Some(SetPc(s, i, WOut(p)))
    case WTest(p) =>
      if s.tasks[p].onRq.Off? then Some(SetPc(s, i, WSpin(p))) else Some(SetPc(s, i, WRead(p)))
    case WRead(p) => Some(SetPc(s, i, WLock(p, s.tasks[p].cpu)))
    case WLock(p, c) => if s.rq[c].Free? then Some(SetPc(s, i, WLocked(p, c))) else None
    case WLocked(p, c) =>
      if s.tasks[p].cpu == c && !s.tasks[p].onRq.Migrating? then Some(SetPc(s, i, WRemote(p, c)))
      else Some(SetPc(s, i, WRead(p)))
    case WRemote(p, c) =>
      if s.tasks[p].onRq.Queued? then Some(SetPc(SetRunning(s, p), i, WOut(p)))
      else Some(SetPc(s, i, WSpin(p)))
    case WSpin(p) => if s.tasks[p].onCpu then None else Some(SetPc(s, i, WSpun(p)))
    case WSpun(p) =>
      var t := s.tasks[p];
      var t' := t.(contrib := Load(t) == 1, state := Waking, at := Taken(i));
      Some(SetPc(SetTask(s, p, t'), i, WPlace(p)))
    case WPlace(p) =>
      if a.PlaceOn? && a.c < |s.cpus| && a.c in s.allowed[p]
      then Some(SetPc(SetTask(s, p, s.tasks[p].(cpu := a.c)), i, WQueue(p, a.c))) else None
    case WQueue(p, c) => (
      match a
      case QueueRemote =>
        var t := s.tasks[p];
        var s1 := SetTask(s, p, t.(at := Listed(c), remoteQueued := t.remoteQueued + 1));
        var s2 := s1.(cpus := s1.cpus[c := s1.cpus[c].(wakeList := [p] + s1.cpus[c].wakeList)]);
        Some(SetPc(s2, i, if s.cpus[c].wakeList == [] then WKick(p, c) else WOut(p)))
      case QueueLocal => if s.rq[c].Free? then Some(SetPc(s, i, WAct(p, c))) else None
      case _ => None)
    case WAct(p, c) => Some(SetPc(Activate(s, p, c, i), i, WWake(p, c)))
    case WWake(p, c) => Some(SetPc(SetRunning(s, p), i, WOut(p)))
    case WKick(p, c) =>
      if s.cpus[c].polling
      then Some(SetPc(s.(cpus := s.cpus[c := s.cpus[c].(needResched := true)]), i, WOut(p)))
      else Some(SetPc(s, i, WIpi(p, c)))
    case WIpi(p, c) => Some(SetPc(s.(cpus := s.cpus[c := s.cpus[c].(ipi := true)]), i, WOut(p)))
    case WOut(p) => Some(SetPc(s, i, Idle))
    case _ => None
  }

  /** llist_del_all: every listed task passes to the drain of thread i. */
  function Relabel(ts: seq<Task>, l: seq<nat>, i: nat): seq<Task> {
    seq(|ts|, t requires 0 <= t < |ts| => if t in l then ts[t].(at := Draining(i)) else ts[t])
  }

  function TakeAll(s: State, i: nat, c: nat): State
    requires i < |s.thr| && c < |s.cpus|
  {
    var l := s.cpus[c].wakeList;
    SetPc(s.(tasks := Relabel(s.tasks, l, i), cpus := s.cpus[c := s.cpus[c].(wakeList := [])]), i, DLock(c, l))
  }

  /** scheduler_ipi, the idle loop's promise and sched_ttwu_pending. */
  function DrainStep(s: State, i: nat, a: Act): (r: Option<State>)
    requires Shape(s) && i < |s.thr|
    ensures r.Some? ==> SameSizes(s, r.value)
  {
    match s.thr[i]
    case Idle => (
      match a
      case Drain(c) => if c < |s.cpus| then Some(SetPc(s, i, DStart(c))) else None
      case Ipi(c) =>
        if c < |s.cpus| && s.cpus[c].ipi
        then Some(SetPc(s.(cpus := s.cpus[c := s.cpus[c].(ipi := false)]), i, DTest(c))) else None
      case IdleExit(c) =>
        if c < |s.cpus| && s.cpus[c].polling && s.cpus[c].needResched
        then Some(SetPc(s.(cpus := s.cpus[c := s.cpus[c].(polling := false)]), i, DStart(c))) else None
      case _ => None)
    case DTest(c) => Some(SetPc(s, i, if s.cpus[c].wakeList == [] then Idle else DStart(c)))
    case DStart(c) =>
      Some(if s.cpus[c].wakeList == [] then SetPc(s, i, Idle) else TakeAll(s, i, c))
    case DLock(c, l) => if s.rq[c].Free? then Some(SetPc(s, i, DLoop(c, l))) else None
    case DLoop(c, l) =>
      if l == [] then Some(SetPc(s, i, Idle))
      else
        var t := s.tasks[l[0]];
        var s1 := SetTask(s, l[0], t.(remoteActivated := t.remoteActivated + 1));
        Some(SetPc(Activate(s1, l[0], c, i), i, DWake(l[0], c, l[1..])))
    case DWake(p, c, l) => Some(SetPc(SetRunning(s, p), i, DLoop(c, l)))
    case _ => None
  }

  /** What the running task and the idle loop do outside __schedule, and how it is entered. */
  function OutsideStep(s: State, c: nat, a: SchedAct): (r: Option<State>)
    requires Shape(s) && c < |s.cpus|
    ensures r.Some? ==> SameSizes(s, r.value)
  {
    var x := s.cpus[c];
    var p := x.curr;
    match a
    case SetState(st, f) =>
      if st.Waking? then None else Some(SetCpu(SetTask(s, p, s.tasks[p].(state := st, frozen := f)), c, x))
    case Lock =>
      // the idle task stops polling before it calls schedule()
      if s.rq[c].Free? && !x.polling then Some(SetCpu(s, c, x.(sched := SLocked))) else None
    case Poll =>
      if p == x.idle then Some(SetCpu(s, c, x.(polling := true))) else None
    case Unpoll =>
      if !x.needResched then Some(SetCpu(s, c, x.(polling := false))) else None
    case _ => None
  }

  /** The part of __schedule that may take prev off the queue. */
  function PrevStep(s: State, c: nat, a: SchedAct): (r: Option<State>)
    requires Shape(s) && c < |s.cpus|
    ensures r.Some? ==> SameSizes(s, r.value)
  {
    var x := s.cpus[c];
    var p := x.curr;
    match a
    case Preempted => Some(SetCpu(s, c, x.(sched := SPick)))  // or prev->state == TASK_RUNNING
    case Signal =>
      // a signal wakes interruptible sleepers, and a fatal one killable sleepers, which are uninterruptible
      if s.tasks[p].state.Interruptible? || s.tasks[p].state.Uninterruptible?
      then Some(SetCpu(SetTask(s, p, s.tasks[p].(state := Running)), c, x.(sched := SPick))) else None
    case Deactivate =>
      if s.tasks[p].state.Running? then None
      else
        var s1 := SetTask(s, p, s.tasks[p].(onRq := Off, at := Asleep));
        Some(SetCpu(s1, c, AddLoad(x, Load(s.tasks[p])).(queue := x.queue - multiset{p}, sched := SDeact)))
    case _ => None
  }

  /** __schedule on CPU c, with try_to_wake_up_local; and what the running task does itself. */
  function SchedStep(s: State, c: nat, a: SchedAct): (r: Option<State>)
    requires Shape(s) && c < |s.cpus|
    ensures r.Some? ==> SameSizes(s, r.value)
  {
    var x := s.cpus[c];
    var p := x.curr;
    if a.Resched? then Some(SetCpu(s, c, x.(needResched := true))) else
    match x.sched
    case SOut => OutsideStep(s, c, a)
    case SLocked => PrevStep(s, c, a)
    case SDeact => (
      match a
      case NoLocal => Some(SetCpu(s, c, x.(sched := SPick)))
      case WakeLocal(w) =>
        // a worker bound to this CPU, not the current task
        if w < |s.tasks| && w != p && s.tasks[w].cpu == c && s.allowed[w] == {c}
        then Some(SetCpu(s, c, x.(sched := if s.pi[w].Free? then SLocal(w) else SLocalPi(w)))) else None
      case _ => None)
    case SLocalPi(w) => if s.pi[w].Free? then Some(SetCpu(s, c, x.(sched := SLocalRq(w)))) else None
    case SLocalRq(w) => if s.rq[c].Free? then Some(SetCpu(s, c, x.(sched := SLocal(w)))) else None
    case SLocal(w) =>
      var t := s.tasks[w];
      if !t.state.Interruptible? && !t.state.Uninterruptible? then Some(SetCpu(s, c, x.(sched := SPick)))
      else if t.onRq.Queued? then
        Some(SetCpu(SetTask(s, w, t.(state := Running)), c, x.(sched := SPick)))
      else
        var s1 := SetTask(s, w, t.(state := Running, onRq := Queued, at := OnQueue));
        Some(SetCpu(s1, c, AddLoad(x, -Load(t)).(queue := x.queue + multiset{w}, sched := SPick)))
    case SPick =>
      if a.Pick? && a.next < |s.tasks| && x.queue[a.next] > 0 then
        var x1 := x.(needResched := if p == x.idle then false else x.needResched);
        if a.next == p then Some(SetCpu(s, c, x1.(sched := SOut)))
        else
          var s1 := SetTask(s, a.next, s.tasks[a.next].(onCpu := true));
          Some(SetCpu(s1, c, x1.(curr := a.next, sched := SSwitch(p))))
      else None
    case SSwitch(prev) =>
      Some(SetCpu(SetTask(s, prev, s.tasks[prev].(onCpu := false)), c, x.(sched := SOut)))
  }

  datatype Step = ByThread(i: nat, a: Act) | ByCpu(c: nat, b: SchedAct)

  function Exec(s: State, step: Step): Option<State>
    requires Shape(s)
  {
    match step
    case ByThread(i, a) =>
      if i >= |s.thr| then None
      else if LockStep(s, i, a).Some? then LockStep(s, i, a)
      else if SwapStep(s, i, a).Some? then SwapStep(s, i, a)
      else if WakeStep(s, i, a).Some? then WakeStep(s, i, a)
      else DrainStep(s, i, a)
    case ByCpu(c, b) => if c < |s.cpus| then SchedStep(s, c, b) else None
  }

  ghost predicate Next(s: State, s': State) {
    Shape(s) && exists step :: Exec(s, step) == Some(s')
  }

  // ---------------------------------------------------------------- the invariant

  predicate MovingTask(pc: Pc, t: nat) {
    (pc.MDeq? || pc.MSet? || pc.MUnl? || pc.MRe?) && pc.p == t
  }

  predicate TakenTask(pc: Pc, t: nat) {
    (pc.WPlace? || pc.WQueue? || pc.WAct?) && pc.p == t
  }

  predicate DrainingTask(pc: Pc, t: nat) {
    (pc.DLock? || pc.DLoop? || pc.DWake?) && t in pc.l
  }

  predicate StartedTask(pc: Pc, t: nat) {
    (pc.WWake? || pc.DWake?) && pc.p == t
  }

  ghost predicate LocksOk(s: State)
    requires |s.cpus| == |s.rq|
  {
    && (forall i, c :: 0 <= i < |s.thr| && 0 <= c < |s.rq| ==> (HoldsRq(s.thr[i], c) <==> s.rq[c] == Thread(i)))
    && (forall i, t :: 0 <= i < |s.thr| && 0 <= t < |s.pi| ==> (HoldsPi(s.thr[i], t) <==> s.pi[t] == Thread(i)))
    && (forall c :: 0 <= c < |s.rq| ==> (SchedHoldsRq(s.cpus[c].sched) <==> s.rq[c] == Scheduler(c)))
    && (forall c, d :: 0 <= c < |s.rq| && s.rq[c] == Scheduler(d) ==> c == d)
    && (forall c, t :: 0 <= c < |s.cpus| && 0 <= t < |s.pi| ==>
        (SchedHoldsPi(s.cpus[c].sched, t) <==> s.pi[t] == Scheduler(c)))
  }

  ghost predicate TaskOk(s: State, t: nat)
    requires t < |s.tasks| == |s.allowed|
  {
    var x := s.tasks[t];
    && x.cpu < |s.cpus| && x.cpu in s.allowed[t]
    && (x.onCpu ==> s.cpus[x.cpu].curr == t || s.cpus[x.cpu].sched == SSwitch(t))
    && x.remoteQueued == x.remoteActivated + (if x.at.Listed? || x.at.Draining? then 1 else 0)
    && match x.at
       case OnQueue => x.onRq.Queued? && !x.state.Waking?
       case Asleep => x.onRq.Off? && (x.state.Interruptible? || x.state.Uninterruptible?)
       case Moving(i) => x.onRq.Migrating? && !x.state.Waking? && !x.onCpu && s.allowed[t] != {x.cpu}
         && i < |s.thr| && MovingTask(s.thr[i], t)
       case Taken(i) => x.onRq.Off? && x.state.Waking? && !x.onCpu && i < |s.thr| && TakenTask(s.thr[i], t)
       case Listed(c) => x.onRq.Off? && x.state.Waking? && !x.onCpu && c == x.cpu && t in s.cpus[c].wakeList
       case Draining(i) => x.onRq.Off? && x.state.Waking? && !x.onCpu && i < |s.thr| && DrainingTask(s.thr[i], t)
       case Started(i) => x.onRq.Queued? && x.state.Waking? && !x.onCpu && i < |s.thr| && StartedTask(s.thr[i], t)
  }

  ghost predicate ListOk(ts: seq<Task>, i: nat, c: nat, l: seq<nat>) {
    && Distinct(l)
    && forall k :: 0 <= k < |l| ==> l[k] < |ts| && ts[l[k]].at == Draining(i) && ts[l[k]].cpu == c
  }

  /** What thread i may rely on at program point pc. */
  ghost predicate PcOk(allowed: seq<set<nat>>, ts: seq<Task>, nc: nat, i: nat, pc: Pc)
    requires |allowed| == |ts|
  {
    InRange(pc, |ts|, nc) &&
    match pc
    case THold(p, c) => ts[p].cpu == c && !ts[p].onRq.Migrating?
    case MDeq(p, c, dst, _) => ts[p].at == Moving(i) && ts[p].cpu == c && c != dst && dst in allowed[p]
    case MSet(p, c, dst, _) => ts[p].at == Moving(i) && ts[p].cpu == dst && c != dst && {c, dst} <= allowed[p]
    case MUnl(p, dst, _) => ts[p].at == Moving(i) && ts[p].cpu == dst
    case MRe(p, dst, _) => ts[p].at == Moving(i) && ts[p].cpu == dst
    case SwapOne(p, q, c, d) => ts[p].cpu == c && ts[q].cpu == d && d in allowed[p] && c in allowed[q]
    case SwapTwo(p, q, c, d) => ts[q].cpu == d && c in allowed[q]
    case WPi(_, mask) => Waking !in mask
    case WTest(p) => !ts[p].state.Waking?
    case WRead(p) => !ts[p].state.Waking?
    case WLock(p, _) => !ts[p].state.Waking?
    case WLocked(p, _) => !ts[p].state.Waking?
    case WRemote(p, c) => !ts[p].state.Waking? && ts[p].cpu == c && !ts[p].onRq.Migrating?
    case WSpin(p) => ts[p].at == Asleep
    case WSpun(p) => ts[p].at == Asleep && !ts[p].onCpu
    case WPlace(p) => ts[p].at == Taken(i)
    case WQueue(p, c) => ts[p].at == Taken(i) && ts[p].cpu == c
    case WAct(p, c) => ts[p].at == Taken(i) && ts[p].cpu == c
    case WWake(p, c) => ts[p].at == Started(i) && ts[p].cpu == c
    case DLock(c, l) => ListOk(ts, i, c, l)
    case DLoop(c, l) => ListOk(ts, i, c, l)
    case DWake(p, c, l) => ListOk(ts, i, c, l) && ts[p].at == Started(i) && ts[p].cpu == c
    case _ => true
  }

  ghost predicate ThreadOk(s: State, i: nat)
    requires i < |s.thr| && |s.allowed| == |s.tasks|
  {
    PcOk(s.allowed, s.tasks, |s.cpus|, i, s.thr[i])
  }

  ghost predicate QueueOk(ts: seq<Task>, c: nat, q: multiset<nat>) {
    && (forall t :: 0 <= t < |ts| ==> q[t] == if ts[t].onRq.Queued? && ts[t].cpu == c then 1 else 0)
    && (forall t :: t in q ==> t < |ts|)
  }

  ghost predicate SchedOk(allowed: seq<set<nat>>, ts: seq<Task>, c: nat, x: Cpu)
    requires |allowed| == |ts|
  {
    && SchedInRange(x, |ts|)
    && ts[x.curr].cpu == c && ts[x.curr].onCpu
    && (x.polling ==> x.curr == x.idle && x.sched.SOut?)
    && match x.sched
       case SOut => ts[x.curr].at == OnQueue
       case SLocked => ts[x.curr].at == OnQueue
       case SDeact => ts[x.curr].at == Asleep
       case SLocalPi(w) => ts[x.curr].at == Asleep && w != x.curr && ts[w].cpu == c && allowed[w] == {c}
       case SLocalRq(w) => ts[x.curr].at == Asleep && w != x.curr && ts[w].cpu == c && allowed[w] == {c}
       case SLocal(w) => ts[x.curr].at == Asleep && w != x.curr && ts[w].cpu == c && allowed[w] == {c}
       case SPick => true
       case SSwitch(p) => ts[x.curr].at == OnQueue && p != x.curr && ts[p].cpu == c && ts[p].onCpu
  }

  ghost predicate WakeListOk(ts: seq<Task>, c: nat, l: seq<nat>) {
    Distinct(l) && forall k :: 0 <= k < |l| ==> l[k] < |ts| && ts[l[k]].at == Listed(c)
  }

  ghost predicate CpuOk(s: State, c: nat)
    requires c < |s.cpus| && |s.allowed| == |s.tasks|
  {
    && QueueOk(s.tasks, c, s.cpus[c].queue)
    && SchedOk(s.allowed, s.tasks, c, s.cpus[c])
    && WakeListOk(s.tasks, c, s.cpus[c].wakeList)
  }

  /** Thread program points that will look at CPU c's wake_list, or make CPU c look at it. */
  predicate Rescuer(pc: Pc, c: nat) {
    (pc.WKick? || pc.WIpi? || pc.DTest? || pc.DStart?) && pc.c == c
  }

  ghost predicate Rescued(s: State, c: nat)
    requires c < |s.cpus|
  {
    || s.cpus[c].wakeList == []
    || s.cpus[c].ipi
    || (s.cpus[c].polling && s.cpus[c].needResched)
    || exists i :: 0 <= i < |s.thr| && Rescuer(s.thr[i], c)
  }

  // nr_uninterruptible, summed over CPUs, and what it counts
  function Contribution(t: Task): int {
    if !t.onRq.Off? then 0
    else if t.state.Waking? then (if t.contrib then 1 else 0)
    else Load(t)
  }

  function SumNr(cpus: seq<Cpu>): int {
    if cpus == [] then 0 else SumNr(cpus[..|cpus| - 1]) + cpus[|cpus| - 1].nrUnint
  }

  function SumLoad(ts: seq<Task>): int {
    if ts == [] then 0 else SumLoad(ts[..|ts| - 1]) + Contribution(ts[|ts| - 1])
  }

  ghost predicate Inv(s: State) {
    && Shape(s) && LocksOk(s)
    && (forall t :: 0 <= t < |s.tasks| ==> TaskOk(s, t))
    && (forall i :: 0 <= i < |s.thr| ==> ThreadOk(s, i))
    && (forall c :: 0 <= c < |s.cpus| ==> CpuOk(s, c))
    && (forall c :: 0 <= c < |s.cpus| ==> Rescued(s, c))
    && SumNr(s.cpus) == SumLoad(s.tasks)
  }

  // ---------------------------------------------------------------- sums

  lemma {:induction false} SumNrUpdate(cpus: seq<Cpu>, c: nat, x: Cpu)
    requires c < |cpus|
    ensures SumNr(cpus[c := x]) == SumNr(cpus) - cpus[c].nrUnint + x.nrUnint
  {
    var n := |cpus| - 1;
    if c == n {
      assert cpus[c := x][..n] == cpus[..n];
    } else {
      assert cpus[c := x][..n] == cpus[..n][c := x];
      SumNrUpdate(cpus[..n], c, x);
    }
  }

  lemma {:induction false} SumLoadUpdate(ts: seq<Task>, t: nat, x: Task)
    requires t < |ts|
    ensures SumLoad(ts[t := x]) == SumLoad(ts) - Contribution(ts[t]) + Contribution(x)
  {
    var n := |ts| - 1;
    if t == n {
      assert ts[t := x][..n] == ts[..n];
    } else {
      assert ts[t := x][..n] == ts[..n][t := x];
      SumLoadUpdate(ts[..n], t, x);
    }
  }

  // ---------------------------------------------------------------- lock words

  lemma PcLocks(s: State, i: nat, pc: Pc)
    requires Shape(s) && LocksOk(s) && i < |s.thr|
    requires forall c :: 0 <= c < |s.rq| && HoldsRq(pc, c) && !HoldsRq(s.thr[i], c) ==> s.rq[c].Free?
    requires forall t :: 0 <= t < |s.pi| && HoldsPi(pc, t) && !HoldsPi(s.thr[i], t) ==> s.pi[t].Free?
    ensures LocksOk(SetPc(s, i, pc))
  {
    var s' := SetPc(s, i, pc);
    forall j, c | 0 <= j < |s.thr| && 0 <= c < |s.rq|
      ensures HoldsRq(s'.thr[j], c) <==> s'.rq[c] == Thread(j)
    {
      assert HoldsRq(s.thr[j], c) <==> s.rq[c] == Thread(j);
      assert HoldsRq(s.thr[i], c) <==> s.rq[c] == Thread(i);
    }
    forall c | 0 <= c < |s.rq| ensures SchedHoldsRq(s.cpus[c].sched) <==> s'.rq[c] == Scheduler(c) {
      assert HoldsRq(s.thr[i], c) <==> s.rq[c] == Thread(i);
    }
    forall j, t | 0 <= j < |s.thr| && 0 <= t < |s.pi|
      ensures HoldsPi(s'.thr[j], t) <==> s'.pi[t] == Thread(j)
    {
      assert HoldsPi(s.thr[j], t) <==> s.pi[t] == Thread(j);
      assert HoldsPi(s.thr[i], t) <==> s.pi[t] == Thread(i);
    }
    forall c, t | 0 <= c < |s.cpus| && 0 <= t < |s.pi|
      ensures SchedHoldsPi(s.cpus[c].sched, t) <==> s'.pi[t] == Scheduler(c)
    {
      assert SchedHoldsPi(s.cpus[c].sched, t) <==> s.pi[t] == Scheduler(c);
      assert HoldsPi(s.thr[i], t) <==> s.pi[t] == Thread(i);
    }
  }

  lemma SchedLocks(s: State, c: nat, x: Cpu)
    requires Shape(s) && LocksOk(s) && c < |s.cpus|
    requires SchedHoldsRq(x.sched) && !SchedHoldsRq(s.cpus[c].sched) ==> s.rq[c].Free?
    requires forall t :: 0 <= t < |s.pi| && SchedHoldsPi(x.sched, t) && !SchedHoldsPi(s.cpus[c].sched, t) ==>
      s.pi[t].Free?
    ensures LocksOk(SetCpu(s, c, x))
  {
    var s' := SetCpu(s, c, x);
    forall j, d | 0 <= j < |s.thr| && 0 <= d < |s.rq| ensures HoldsRq(s'.thr[j], d) <==> s'.rq[d] == Thread(j) {
      assert HoldsRq(s.thr[j], d) <==> s.rq[d] == Thread(j);
      assert SchedHoldsRq(s.cpus[d].sched) <==> s.rq[d] == Scheduler(d);
    }
    forall j, t | 0 <= j < |s.thr| && 0 <= t < |s.pi| ensures HoldsPi(s'.thr[j], t) <==> s'.pi[t] == Thread(j) {
      assert HoldsPi(s.thr[j], t) <==> s.pi[t] == Thread(j);
      assert SchedHoldsPi(s.cpus[c].sched, t) <==> s.pi[t] == Scheduler(c);
    }
    forall d | 0 <= d < |s.rq| ensures SchedHoldsRq(s'.cpus[d].sched) <==> s'.rq[d] == Scheduler(d) {
      assert SchedHoldsRq(s.cpus[d].sched) <==> s.rq[d] == Scheduler(d);
    }
    forall d, t | 0 <= d < |s.cpus| && 0 <= t < |s.pi|
      ensures SchedHoldsPi(s'.cpus[d].sched, t) <==> s'.pi[t] == Scheduler(d)
    {
      assert SchedHoldsPi(s.cpus[d].sched, t) <==> s.pi[t] == Scheduler(d);
      assert SchedHoldsPi(s.cpus[c].sched, t) <==> s.pi[t] == Scheduler(c);
    }
  }

  /** Lock words and program points alone decide LocksOk; ranges alone decide Shape. */
  lemma PcLocksFrom(s: State, s1: State, i: nat, pc: Pc)
    requires Shape(s) && LocksOk(s) && i < |s.thr|
    requires s1.pi == s.pi && s1.rq == s.rq && s1.thr == s.thr && s1.allowed == s.allowed
    requires |s1.tasks| == |s.tasks| && |s1.cpus| == |s.cpus| && InRange(pc, |s.tasks|, |s.cpus|)
    requires forall c :: 0 <= c < |s.cpus| ==>
      s1.cpus[c].sched == s.cpus[c].sched && s1.cpus[c].curr == s.cpus[c].curr && s1.cpus[c].idle == s.cpus[c].idle
    requires forall c :: 0 <= c < |s.cpus| ==> s1.cpus[c].wakeList == s.cpus[c].wakeList || s1.cpus[c].wakeList == []
    requires forall t :: 0 <= t < |s.tasks| ==> s1.tasks[t].cpu < |s.cpus|
    requires forall c :: 0 <= c < |s.rq| && HoldsRq(pc, c) && !HoldsRq(s.thr[i], c) ==> s.rq[c].Free?
    requires forall t :: 0 <= t < |s.pi| && HoldsPi(pc, t) && !HoldsPi(s.thr[i], t) ==> s.pi[t].Free?
    ensures Shape(SetPc(s1, i, pc)) && LocksOk(SetPc(s1, i, pc))
  {
    assert Shape(s1);
    PcLocks(s1, i, pc);
  }

  /** A step of thread i that changes nothing but its program point and its locks. */
  lemma PcOnly(s: State, i: nat, pc: Pc)
    requires Inv(s) && i < |s.thr|
    requires forall c :: 0 <= c < |s.rq| && HoldsRq(pc, c) && !HoldsRq(s.thr[i], c) ==> s.rq[c].Free?
    requires forall t :: 0 <= t < |s.pi| && HoldsPi(pc, t) && !HoldsPi(s.thr[i], t) ==> s.pi[t].Free?
    requires PcOk(s.allowed, s.tasks, |s.cpus|, i, pc)
    requires forall t :: 0 <= t < |s.tasks| ==>
      && (MovingTask(s.thr[i], t) ==> MovingTask(pc, t)) && (TakenTask(s.thr[i], t) ==> TakenTask(pc, t))
      && (DrainingTask(s.thr[i], t) ==> DrainingTask(pc, t)) && (StartedTask(s.thr[i], t) ==> StartedTask(pc, t))
    requires forall c :: 0 <= c < |s.cpus| && Rescuer(s.thr[i], c) && !Rescuer(pc, c) ==>
      s.cpus[c].wakeList == [] || s.cpus[c].ipi || (s.cpus[c].polling && s.cpus[c].needResched)
    ensures Inv(SetPc(s, i, pc))
  {
    var s' := SetPc(s, i, pc);
    PcLocks(s, i, pc);
    forall t | 0 <= t < |s.tasks| ensures TaskOk(s', t) { assert TaskOk(s, t); }
    forall j | 0 <= j < |s.thr| ensures ThreadOk(s', j) { assert ThreadOk(s, j); }
    forall c | 0 <= c < |s.cpus| ensures CpuOk(s', c) && Rescued(s', c) {
      assert CpuOk(s, c) && Rescued(s, c);
      if j :| 0 <= j < |s.thr| && Rescuer(s.thr[j], c) {
        assert j != i ==> s'.thr[j] == s.thr[j];
        assert s'.thr[i] == pc;
      }
    }
  }

  /** A program point at which a thread is responsible for no task and nobody waits for it to drain a list. */
  predicate Light(pc: Pc) {
    !(pc.MDeq? || pc.MSet? || pc.MUnl? || pc.MRe? || pc.WPlace? || pc.WQueue? || pc.WAct? || pc.WWake?
      || pc.WKick? || pc.WIpi? || pc.DTest? || pc.DStart? || pc.DLock? || pc.DLoop? || pc.DWake?)
  }

  /** A step from such a point that changes only the program point and the locks. */
  lemma LightStep(s: State, i: nat, pc: Pc)
    requires Inv(s) && i < |s.thr| && Light(s.thr[i]) && LocksFree(s, i, pc)
    requires PcOk(s.allowed, s.tasks, |s.cpus|, i, pc)
    ensures Inv(SetPc(s, i, pc))
  {
    PcOnly(s, i, pc);
  }

  /** A queued task whose rq lock thread i holds, without having just activated it, is settled. */
  lemma Settled(s: State, i: nat, t: nat)
    requires Inv(s) && i < |s.thr| && t < |s.tasks| && s.tasks[t].onRq.Queued?
    requires HoldsRq(s.thr[i], s.tasks[t].cpu) && !StartedTask(s.thr[i], t)
    ensures s.tasks[t].at == OnQueue
  {
    assert TaskOk(s, t);
    if s.tasks[t].at.Started? {
      StartedHolder(s, t);
      SoleRq(s, i, s.tasks[t].at.id, s.tasks[t].cpu);
    }
  }

  lemma StartedHolder(s: State, t: nat)
    requires Inv(s) && t < |s.tasks| && s.tasks[t].at.Started?
    ensures s.tasks[t].at.id < |s.thr| && HoldsRq(s.thr[s.tasks[t].at.id], s.tasks[t].cpu)
    ensures StartedTask(s.thr[s.tasks[t].at.id], t)
  {
    assert TaskOk(s, t) && ThreadOk(s, s.tasks[t].at.id);
  }

  lemma SoleRq(s: State, i: nat, j: nat, c: nat)
    requires Inv(s) && i < |s.thr| && j < |s.thr| && c < |s.rq| && HoldsRq(s.thr[i], c) && HoldsRq(s.thr[j], c)
    ensures i == j
  {
    assert HoldsRq(s.thr[i], c) <==> s.rq[c] == Thread(i);
    assert HoldsRq(s.thr[j], c) <==> s.rq[c] == Thread(j);
  }

  lemma SolePi(s: State, i: nat, j: nat, p: nat)
    requires Inv(s) && i < |s.thr| && j < |s.thr| && p < |s.pi| && HoldsPi(s.thr[i], p) && HoldsPi(s.thr[j], p)
    ensures i == j
  {
    assert HoldsPi(s.thr[i], p) <==> s.pi[p] == Thread(i);
    assert HoldsPi(s.thr[j], p) <==> s.pi[p] == Thread(j);
  }

  predicate OwnedBy(at: Place, j: nat) {
    (at.Moving? || at.Taken? || at.Draining? || at.Started?) && at.id == j
  }

  /** A change of task p from x to x' leaves intact what program point pc of thread j relies on. */
  predicate Harmless(p: nat, x: Task, x': Task, j: nat, pc: Pc) {
    && (OwnedBy(x.at, j) ==> x'.at == x.at && x'.cpu == x.cpu)
    && (x'.cpu != x.cpu || (x'.onRq.Migrating? && !x.onRq.Migrating?) ==> !HoldsRq(pc, x.cpu) || !HoldsPi(pc, p))
    && (x'.state.Waking? ==> x.state.Waking? || !HoldsPi(pc, p))
    && (x.at.Asleep? ==> (x'.at.Asleep? && (x'.onCpu ==> x.onCpu)) || !HoldsPi(pc, p))
  }

  lemma HarmlessPc(allowed: seq<set<nat>>, ts: seq<Task>, nc: nat, p: nat, x': Task, j: nat, pc: Pc)
    requires |allowed| == |ts| && p < |ts| && PcOk(allowed, ts, nc, j, pc)
    requires Harmless(p, ts[p], x', j, pc)
    ensures PcOk(allowed, ts[p := x'], nc, j, pc)
  {
  }

  /** Thread i changes task p, CPU c's record and its own program point. */
  function Change(s: State, i: nat, p: nat, x': Task, c: nat, y': Cpu, pc: Pc): State
    requires i < |s.thr| && p < |s.tasks| && c < |s.cpus|
  {
    SetPc(s.(tasks := s.tasks[p := x'], cpus := s.cpus[c := y']), i, pc)
  }

  predicate InQueue(x: Task, c: nat) {
    x.onRq.Queued? && x.cpu == c
  }

  predicate KeepsOthers(old_: Pc, new_: Pc, p: nat, t: nat) {
    t == p ||
    (&& (MovingTask(old_, t) ==> MovingTask(new_, t)) && (TakenTask(old_, t) ==> TakenTask(new_, t))
     && (DrainingTask(old_, t) ==> DrainingTask(new_, t)) && (StartedTask(old_, t) ==> StartedTask(new_, t)))
  }

  /** Thread i's new program point still accounts for every other task it is responsible for. */
  ghost predicate OthersKept(s: State, i: nat, p: nat, pc: Pc)
    requires i < |s.thr|
  {
    forall t :: 0 <= t < |s.tasks| ==> KeepsOthers(s.thr[i], pc, p, t)
  }

  /** No other thread relies on what changes about p. */
  ghost predicate OthersUnharmed(s: State, i: nat, p: nat, x': Task)
    requires p < |s.tasks|
  {
    forall j :: 0 <= j < |s.thr| && j != i ==> Harmless(p, s.tasks[p], x', j, s.thr[j])
  }

  ghost predicate LocksFree(s: State, i: nat, pc: Pc)
    requires i < |s.thr|
  {
    && (forall c :: 0 <= c < |s.rq| && HoldsRq(pc, c) && !HoldsRq(s.thr[i], c) ==> s.rq[c].Free?)
    && (forall t :: 0 <= t < |s.pi| && HoldsPi(pc, t) && !HoldsPi(s.thr[i], t) ==> s.pi[t].Free?)
  }

  /** The part of CPU c's record that thread steps leave alone. */
  predicate SameSched(y: Cpu, y': Cpu) {
    y'.sched == y.sched && y'.curr == y.curr && y'.idle == y.idle && (y'.polling ==> y.polling)
  }

  lemma ChangeQueues(s: State, p: nat, x': Task, c: nat, q': multiset<nat>, d: nat)
    requires Inv(s) && p < |s.tasks| && c < |s.cpus| && d < |s.cpus|
    requires forall e :: e != c ==> (InQueue(s.tasks[p], e) <==> InQueue(x', e))
    requires q' == s.cpus[c].queue[p := if InQueue(x', c) then 1 else 0]
    ensures QueueOk(s.tasks[p := x'], d, if d == c then q' else s.cpus[d].queue)
  {
    assert CpuOk(s, d);
    assert d != c ==> (InQueue(s.tasks[p], d) <==> InQueue(x', d));
  }

  lemma ChangeSched(s: State, p: nat, x': Task, c: nat, y': Cpu, d: nat)
    requires Inv(s) && p < |s.tasks| && c < |s.cpus| && d < |s.cpus|
    requires SameSched(s.cpus[c], y')
    requires s.tasks[p].onCpu ==> x'.cpu == s.tasks[p].cpu && x'.onCpu && x'.at == s.tasks[p].at
    requires x'.cpu in s.allowed[p]
    ensures SchedOk(s.allowed, s.tasks[p := x'], d, s.cpus[c := y'][d])
  {
    assert CpuOk(s, d);
  }

  lemma ChangeWakeLists(s: State, p: nat, x': Task, c: nat, y': Cpu, d: nat)
    requires Inv(s) && p < |s.tasks| && c < |s.cpus| && d < |s.cpus|
    requires s.tasks[p].at.Listed? ==> x'.at == s.tasks[p].at
    requires y'.wakeList == s.cpus[c].wakeList
      || (!s.tasks[p].at.Listed? && x'.at == Listed(c) && y'.wakeList == [p] + s.cpus[c].wakeList)
    ensures WakeListOk(s.tasks[p := x'], d, s.cpus[c := y'][d].wakeList)
  {
    assert CpuOk(s, d);
  }

  lemma ChangeTask(s: State, i: nat, p: nat, x': Task, c: nat, y': Cpu, pc: Pc, t: nat)
    requires Inv(s) && i < |s.thr| && p < |s.tasks| && c < |s.cpus| && t < |s.tasks| && t != p
    requires SameSched(s.cpus[c], y') && KeepsOthers(s.thr[i], pc, p, t)
    requires y'.wakeList == s.cpus[c].wakeList || y'.wakeList == [p] + s.cpus[c].wakeList
    ensures TaskOk(Change(s, i, p, x', c, y', pc), t)
  {
    assert TaskOk(s, t);
  }

  lemma ChangeShape(s: State, p: nat, x': Task, c: nat, y': Cpu)
    requires Inv(s) && p < |s.tasks| && c < |s.cpus| && SameSched(s.cpus[c], y') && x'.cpu < |s.cpus|
    requires y'.wakeList == s.cpus[c].wakeList || y'.wakeList == [p] + s.cpus[c].wakeList
    ensures Shape(s.(tasks := s.tasks[p := x'], cpus := s.cpus[c := y']))
    ensures LocksOk(s.(tasks := s.tasks[p := x'], cpus := s.cpus[c := y']))
  {
  }

  lemma ChangeLocks(s: State, i: nat, p: nat, x': Task, c: nat, y': Cpu, pc: Pc)
    requires Inv(s) && i < |s.thr| && p < |s.tasks| && c < |s.cpus|
    requires LocksFree(s, i, pc) && SameSched(s.cpus[c], y')
    requires InRange(pc, |s.tasks|, |s.cpus|) && x'.cpu < |s.cpus|
    requires y'.wakeList == s.cpus[c].wakeList || y'.wakeList == [p] + s.cpus[c].wakeList
    ensures Shape(Change(s, i, p, x', c, y', pc)) && LocksOk(Change(s, i, p, x', c, y', pc))
  {
    ChangeShape(s, p, x', c, y');
    PcLocks(s.(tasks := s.tasks[p := x'], cpus := s.cpus[c := y']), i, pc);
  }

  lemma ChangeThreads(s: State, i: nat, p: nat, x': Task, c: nat, y': Cpu, pc: Pc, j: nat)
    requires Inv(s) && i < |s.thr| && p < |s.tasks| && c < |s.cpus| && j < |s.thr|
    requires PcOk(s.allowed, s.tasks[p := x'], |s.cpus|, i, pc)
    requires j != i ==> Harmless(p, s.tasks[p], x', j, s.thr[j])
    ensures ThreadOk(Change(s, i, p, x', c, y', pc), j)
  {
    assert ThreadOk(s, j);
    if j != i { HarmlessPc(s.allowed, s.tasks, |s.cpus|, p, x', j, s.thr[j]); }
  }

  lemma ChangeInv(s: State, i: nat, p: nat, x': Task, c: nat, y': Cpu, pc: Pc)
    requires Inv(s) && i < |s.thr| && p < |s.tasks| && c < |s.cpus|
    requires LocksFree(s, i, pc) && SameSched(s.cpus[c], y')
    requires PcOk(s.allowed, s.tasks[p := x'], |s.cpus|, i, pc)
    requires TaskOk(Change(s, i, p, x', c, y', pc), p)
    requires OthersKept(s, i, p, pc)
    requires OthersUnharmed(s, i, p, x')
    requires forall e :: e != c ==> (InQueue(s.tasks[p], e) <==> InQueue(x', e))
    requires y'.queue == s.cpus[c].queue[p := if InQueue(x', c) then 1 else 0]
    requires s.tasks[p].onCpu ==> x'.cpu == s.tasks[p].cpu && x'.onCpu && x'.at == s.tasks[p].at
    requires s.tasks[p].at.Listed? ==> x'.at == s.tasks[p].at
    requires y'.wakeList == s.cpus[c].wakeList
      || (!s.tasks[p].at.Listed? && x'.at == Listed(c) && y'.wakeList == [p] + s.cpus[c].wakeList)
    requires forall d :: 0 <= d < |s.cpus| ==> Rescued(Change(s, i, p, x', c, y', pc), d)
    requires y'.nrUnint - s.cpus[c].nrUnint == Contribution(x') - Contribution(s.tasks[p])
    ensures Inv(Change(s, i, p, x', c, y', pc))
  {
    var s' := Change(s, i, p, x', c, y', pc);
    ChangeLocks(s, i, p, x', c, y', pc);
    assert |s'.tasks| == |s.tasks| && |s'.cpus| == |s.cpus| && |s'.thr| == |s.thr| && s'.allowed == s.allowed;
    forall j | 0 <= j < |s.thr| ensures ThreadOk(s', j) {
      ChangeThreads(s, i, p, x', c, y', pc, j);
    }
    forall t | 0 <= t < |s.tasks| ensures TaskOk(s', t) {
      if t != p { ChangeTask(s, i, p, x', c, y', pc, t); }
    }
    forall d | 0 <= d < |s.cpus| ensures CpuOk(s', d) {
      ChangeQueues(s, p, x', c, y'.queue, d);
      ChangeSched(s, p, x', c, y', d);
      ChangeWakeLists(s, p, x', c, y', d);
    }
    SumNrUpdate(s.cpus, c, y');
    SumLoadUpdate(s.tasks, p, x');
  }

  /** A step that keeps every wake_list and rescues nobody less keeps every list rescued. */
  lemma StillRescued(s: State, i: nat, p: nat, x': Task, c: nat, y': Cpu, pc: Pc)
    requires Inv(s) && i < |s.thr| && p < |s.tasks| && c < |s.cpus|
    requires y'.wakeList == s.cpus[c].wakeList || s.cpus[c].wakeList != []
    requires s.cpus[c].ipi ==> y'.ipi || Rescuer(pc, c)
    requires s.cpus[c].polling && s.cpus[c].needResched ==> (y'.polling && y'.needResched) || Rescuer(pc, c)
    requires forall d :: Rescuer(s.thr[i], d) && !Rescuer(pc, d) ==>
      d == c && (y'.ipi || (y'.polling && y'.needResched))
    ensures forall d :: 0 <= d < |s.cpus| ==> Rescued(Change(s, i, p, x', c, y', pc), d)
  {
    var s' := Change(s, i, p, x', c, y', pc);
    forall d | 0 <= d < |s.cpus| ensures Rescued(s', d) {
      assert Rescued(s, d);
      assert s'.thr[i] == pc;
      if j :| 0 <= j < |s.thr| && Rescuer(s.thr[j], d) {
        assert j != i ==> s'.thr[j] == s.thr[j];
      }
    }
  }

  /** Thread i changes task p and its own program point; p stays in the queue it is in, if any. */
  lemma TaskOnly(s: State, i: nat, p: nat, x': Task, pc: Pc)
    requires Inv(s) && i < |s.thr| && p < |s.tasks| && LocksFree(s, i, pc)
    requires PcOk(s.allowed, s.tasks[p := x'], |s.cpus|, i, pc)
    requires TaskOk(SetPc(SetTask(s, p, x'), i, pc), p)
    requires OthersKept(s, i, p, pc)
    requires OthersUnharmed(s, i, p, x')
    requires x'.onRq.Queued? == s.tasks[p].onRq.Queued? && (x'.onRq.Queued? ==> x'.cpu == s.tasks[p].cpu)
    requires s.tasks[p].onCpu ==> x'.cpu == s.tasks[p].cpu && x'.onCpu && x'.at == s.tasks[p].at
    requires s.tasks[p].at.Listed? ==> x'.at == s.tasks[p].at
    requires forall d :: !Rescuer(s.thr[i], d)
    requires Contribution(x') == Contribution(s.tasks[p])
    ensures Inv(SetPc(SetTask(s, p, x'), i, pc))
  {
    var c := s.tasks[p].cpu;
    var y := s.cpus[c];
    assert s.cpus[c := y] == s.cpus;
    assert CpuOk(s, c);
    assert y.queue == y.queue[p := if InQueue(x', c) then 1 else 0];
    StillRescued(s, i, p, x', c, y, pc);
    ChangeInv(s, i, p, x', c, y, pc);
  }

  // ---------------------------------------------------------------- thread steps keep the invariant

  lemma DequeuerKeepsOthers(s: State, i: nat, p: nat, c: nat, dst: nat, b: bool)
    requires i < |s.thr| && ((b && s.thr[i] == THold(p, c)) || (!b && s.thr[i] == RqHeld(c)))
    ensures OthersKept(s, i, p, MDeq(p, c, dst, b)) && LocksFree(s, i, MDeq(p, c, dst, b))
    ensures forall d :: !Rescuer(s.thr[i], d)
  {
  }

  lemma DequeuedTaskOk(s: State, i: nat, p: nat, c: nat, dst: nat, b: bool, x': Task, y': Cpu)
    requires Inv(s) && i < |s.thr| && Movable(s, p, c, dst) && s.tasks[p].at == OnQueue
    requires x' == s.tasks[p].(onRq := Migrating, at := Moving(i))
    requires y' == s.cpus[c].(queue := s.cpus[c].queue - multiset{p})
    ensures TaskOk(Change(s, i, p, x', c, y', MDeq(p, c, dst, b)), p)
    ensures PcOk(s.allowed, s.tasks[p := x'], |s.cpus|, i, MDeq(p, c, dst, b))
    ensures SameSched(s.cpus[c], y') && y'.queue == s.cpus[c].queue[p := 0]
  {
    assert TaskOk(s, p) && CpuOk(s, c);
  }

  lemma DequeuedUnharmed(s: State, i: nat, p: nat, x': Task)
    requires Inv(s) && i < |s.thr| && p < |s.tasks| && HoldsRq(s.thr[i], s.tasks[p].cpu) && s.tasks[p].at == OnQueue
    requires x' == s.tasks[p].(onRq := Migrating, at := Moving(i)) && !s.tasks[p].state.Waking?
    ensures OthersUnharmed(s, i, p, x')
  {
    var c := s.tasks[p].cpu;
    forall j | 0 <= j < |s.thr| && j != i ensures Harmless(p, s.tasks[p], x', j, s.thr[j]) {
      assert TaskOk(s, p);
      if HoldsRq(s.thr[j], c) { SoleRq(s, i, j, c); }
    }
  }

  lemma StepDequeue(s: State, i: nat, p: nat, c: nat, dst: nat, b: bool)
    requires Inv(s) && i < |s.thr| && Movable(s, p, c, dst)
    requires (b && s.thr[i] == THold(p, c)) || (!b && s.thr[i] == RqHeld(c))
    ensures Inv(DequeueForMove(s, i, p, c, dst, b))
  {
    Settled(s, i, p);
    var x' := s.tasks[p].(onRq := Migrating, at := Moving(i));
    var y' := s.cpus[c].(queue := s.cpus[c].queue - multiset{p});
    var pc := MDeq(p, c, dst, b);
    assert !s.tasks[p].state.Waking? by { assert TaskOk(s, p); }
    DequeuedTaskOk(s, i, p, c, dst, b, x', y');
    DequeuerKeepsOthers(s, i, p, c, dst, b);
    DequeuedUnharmed(s, i, p, x');
    StillRescued(s, i, p, x', c, y', pc);
    ChangeInv(s, i, p, x', c, y', pc);
    assert DequeueForMove(s, i, p, c, dst, b) == Change(s, i, p, x', c, y', pc);
  }

  lemma MoveSetTaskOk(s: State, i: nat, p: nat, c: nat, dst: nat, b: bool, x': Task)
    requires Inv(s) && i < |s.thr| && s.thr[i] == MDeq(p, c, dst, b) && x' == s.tasks[p].(cpu := dst)
    ensures TaskOk(SetPc(SetTask(s, p, x'), i, MSet(p, c, dst, b)), p)
    ensures PcOk(s.allowed, s.tasks[p := x'], |s.cpus|, i, MSet(p, c, dst, b))
    ensures s.tasks[p].at == Moving(i) && s.tasks[p].cpu == c && s.tasks[p].onRq.Migrating? && !s.tasks[p].onCpu
    ensures Contribution(x') == Contribution(s.tasks[p])
  {
    assert TaskOk(s, p) && ThreadOk(s, i);
  }

  lemma SetterKeepsOthers(s: State, i: nat, p: nat, c: nat, dst: nat, b: bool)
    requires i < |s.thr| && s.thr[i] == MDeq(p, c, dst, b)
    ensures OthersKept(s, i, p, MSet(p, c, dst, b)) && LocksFree(s, i, MSet(p, c, dst, b))
    ensures forall d :: !Rescuer(s.thr[i], d)
  {
  }

  lemma RqHolderUnharmed(s: State, i: nat, p: nat, x': Task)
    requires Inv(s) && i < |s.thr| && p < |s.tasks| && s.tasks[p].at == Moving(i)
    requires HoldsRq(s.thr[i], s.tasks[p].cpu) && x' == s.tasks[p].(cpu := x'.cpu)
    ensures OthersUnharmed(s, i, p, x')
  {
    var c := s.tasks[p].cpu;
    forall j | 0 <= j < |s.thr| && j != i ensures Harmless(p, s.tasks[p], x', j, s.thr[j]) {
      assert TaskOk(s, p);
      if HoldsRq(s.thr[j], c) { SoleRq(s, i, j, c); }
    }
  }

  lemma StepSetCpu(s: State, i: nat, p: nat, c: nat, dst: nat, b: bool)
    requires Inv(s) && i < |s.thr| && s.thr[i] == MDeq(p, c, dst, b)
    ensures Inv(SetPc(SetTask(s, p, s.tasks[p].(cpu := dst)), i, MSet(p, c, dst, b)))
  {
    var x' := s.tasks[p].(cpu := dst);
    MoveSetTaskOk(s, i, p, c, dst, b, x');
    RqHolderUnharmed(s, i, p, x');
    SetterKeepsOthers(s, i, p, c, dst, b);
    TaskOnly(s, i, p, x', MSet(p, c, dst, b));
  }

  /** The last step of a move: thread i is responsible for no other task. */
  lemma MoverKeepsOthers(s: State, i: nat, p: nat, c: nat, b: bool)
    requires i < |s.thr| && s.thr[i] == MRe(p, c, b)
    ensures OthersKept(s, i, p, MDone(p, c, b)) && LocksFree(s, i, MDone(p, c, b))
    ensures forall d :: !Rescuer(s.thr[i], d)
  {
  }

  /** A task that thread i is moving concerns no other thread while CPU and state stay. */
  lemma MovedIsOwn(s: State, i: nat, p: nat, x': Task)
    requires p < |s.tasks| && s.tasks[p].at == Moving(i) && x'.cpu == s.tasks[p].cpu
    requires x'.state == s.tasks[p].state && !x'.onRq.Migrating?
    ensures OthersUnharmed(s, i, p, x')
  {
  }

  lemma EnqueuedTaskOk(s: State, i: nat, p: nat, c: nat, b: bool, x': Task, y': Cpu)
    requires Inv(s) && i < |s.thr| && s.thr[i] == MRe(p, c, b) && x' == s.tasks[p].(onRq := Queued, at := OnQueue)
    requires y' == s.cpus[c].(queue := s.cpus[c].queue + multiset{p})
    ensures TaskOk(Change(s, i, p, x', c, y', MDone(p, c, b)), p)
    ensures PcOk(s.allowed, s.tasks[p := x'], |s.cpus|, i, MDone(p, c, b))
    ensures s.tasks[p].at == Moving(i) && s.tasks[p].cpu == c && s.tasks[p].onRq.Migrating? && !s.tasks[p].onCpu
    ensures Contribution(x') == Contribution(s.tasks[p])
    ensures SameSched(s.cpus[c], y') && y'.queue == s.cpus[c].queue[p := 1]
  {
    assert TaskOk(s, p) && ThreadOk(s, i) && CpuOk(s, c);
  }

  lemma StepEnqueue(s: State, i: nat, p: nat, c: nat, b: bool)
    requires Inv(s) && i < |s.thr| && s.thr[i] == MRe(p, c, b)
    ensures Inv(Change(s, i, p, s.tasks[p].(onRq := Queued, at := OnQueue), c,
      s.cpus[c].(queue := s.cpus[c].queue + multiset{p}), MDone(p, c, b)))
  {
    var x' := s.tasks[p].(onRq := Queued, at := OnQueue);
    var y' := s.cpus[c].(queue := s.cpus[c].queue + multiset{p});
    EnqueuedTaskOk(s, i, p, c, b, x', y');
    MoverKeepsOthers(s, i, p, c, b);
    MovedIsOwn(s, i, p, x');
    StillRescued(s, i, p, x', c, y', MDone(p, c, b));
    ChangeInv(s, i, p, x', c, y', MDone(p, c, b));
  }

  lemma RemoteTaskOk(s: State, i: nat, p: nat, c: nat, x': Task)
    requires Inv(s) && i < |s.thr| && s.thr[i] == WRemote(p, c) && p < |s.tasks| && s.tasks[p].at == OnQueue
    requires x' == s.tasks[p].(state := Running, at := OnQueue)
    ensures TaskOk(SetPc(SetTask(s, p, x'), i, WOut(p)), p)
    ensures PcOk(s.allowed, s.tasks[p := x'], |s.cpus|, i, WOut(p))
    ensures OthersUnharmed(s, i, p, x')
  {
    assert TaskOk(s, p);
  }

  lemma RemoteKeepsOthers(s: State, i: nat, p: nat, c: nat)
    requires i < |s.thr| && s.thr[i] == WRemote(p, c)
    ensures OthersKept(s, i, p, WOut(p)) && LocksFree(s, i, WOut(p)) && forall d :: !Rescuer(s.thr[i], d)
  {
  }

  lemma StepRemote(s: State, i: nat, p: nat, c: nat)
    requires Inv(s) && i < |s.thr| && s.thr[i] == WRemote(p, c) && s.tasks[p].onRq.Queued?
    ensures Inv(SetPc(SetRunning(s, p), i, WOut(p)))
  {
    var x' := s.tasks[p].(state := Running, at := OnQueue);
    assert ThreadOk(s, i);
    Settled(s, i, p);
    RemoteTaskOk(s, i, p, c, x');
    RemoteKeepsOthers(s, i, p, c);
    TaskOnly(s, i, p, x', WOut(p));
  }

  lemma MarkerKeepsOthers(s: State, i: nat, p: nat)
    requires i < |s.thr| && s.thr[i] == WSpun(p)
    ensures OthersKept(s, i, p, WPlace(p)) && LocksFree(s, i, WPlace(p))
    ensures forall d :: !Rescuer(s.thr[i], d)
  {
  }

  /** What changes about a task whose pi_lock thread i holds concerns no other thread, unless one owns the task. */
  lemma PiHolderUnharmed(s: State, i: nat, p: nat, x': Task)
    requires Inv(s) && i < |s.thr| && p < |s.tasks| && HoldsPi(s.thr[i], p)
    requires s.tasks[p].at == Asleep || s.tasks[p].at == Taken(i)
    ensures OthersUnharmed(s, i, p, x')
  {
    forall j | 0 <= j < |s.thr| && j != i ensures Harmless(p, s.tasks[p], x', j, s.thr[j]) {
      if HoldsPi(s.thr[j], p) { SolePi(s, i, j, p); }
    }
  }

  lemma MarkedTaskOk(s: State, i: nat, p: nat, x': Task)
    requires Inv(s) && i < |s.thr| && s.thr[i] == WSpun(p)
    requires x' == s.tasks[p].(contrib := Load(s.tasks[p]) == 1, state := Waking, at := Taken(i))
    ensures TaskOk(SetPc(SetTask(s, p, x'), i, WPlace(p)), p)
    ensures PcOk(s.allowed, s.tasks[p := x'], |s.cpus|, i, WPlace(p))
    ensures s.tasks[p].at.Asleep? && Contribution(x') == Contribution(s.tasks[p])
    ensures !s.tasks[p].onCpu && !s.tasks[p].onRq.Queued?
  {
    assert TaskOk(s, p) && ThreadOk(s, i);
  }

  lemma StepMark(s: State, i: nat, p: nat)
    requires Inv(s) && i < |s.thr| && s.thr[i] == WSpun(p)
    ensures var t := s.tasks[p];
      Inv(SetPc(SetTask(s, p, t.(contrib := Load(t) == 1, state := Waking, at := Taken(i))), i, WPlace(p)))
  {
    var x' := s.tasks[p].(contrib := Load(s.tasks[p]) == 1, state := Waking, at := Taken(i));
    MarkedTaskOk(s, i, p, x');
    PiHolderUnharmed(s, i, p, x');
    MarkerKeepsOthers(s, i, p);
    TaskOnly(s, i, p, x', WPlace(p));
  }

  lemma PlacedTaskOk(s: State, i: nat, p: nat, d: nat, x': Task)
    requires Inv(s) && i < |s.thr| && s.thr[i] == WPlace(p) && d < |s.cpus| && d in s.allowed[p]
    requires x' == s.tasks[p].(cpu := d)
    ensures TaskOk(SetPc(SetTask(s, p, x'), i, WQueue(p, d)), p)
    ensures PcOk(s.allowed, s.tasks[p := x'], |s.cpus|, i, WQueue(p, d))
    ensures s.tasks[p].at == Taken(i) && !s.tasks[p].onCpu && !s.tasks[p].onRq.Queued?
    ensures Contribution(x') == Contribution(s.tasks[p])
  {
    assert TaskOk(s, p) && ThreadOk(s, i);
  }

  lemma PlacerKeepsOthers(s: State, i: nat, p: nat, d: nat)
    requires i < |s.thr| && s.thr[i] == WPlace(p)
    ensures OthersKept(s, i, p, WQueue(p, d)) && LocksFree(s, i, WQueue(p, d))
    ensures forall e :: !Rescuer(s.thr[i], e)
  {
  }

  lemma StepPlace(s: State, i: nat, p: nat, d: nat)
    requires Inv(s) && i < |s.thr| && s.thr[i] == WPlace(p) && d < |s.cpus| && d in s.allowed[p]
    ensures Inv(SetPc(SetTask(s, p, s.tasks[p].(cpu := d)), i, WQueue(p, d)))
  {
    var x' := s.tasks[p].(cpu := d);
    PlacedTaskOk(s, i, p, d, x');
    PiHolderUnharmed(s, i, p, x');
    PlacerKeepsOthers(s, i, p, d);
    TaskOnly(s, i, p, x', WQueue(p, d));
  }

  lemma AddedIsRescued(s: State, i: nat, p: nat, x': Task, c: nat, y': Cpu, pc: Pc)
    requires Inv(s) && i < |s.thr| && p < |s.tasks| && c < |s.cpus| && Rescuer(pc, c)
    requires forall d :: !Rescuer(s.thr[i], d)
    ensures forall d :: 0 <= d < |s.cpus| ==> Rescued(Change(s, i, p, x', c, y', pc), d)
  {
    var s' := Change(s, i, p, x', c, y', pc);
    assert s'.thr[i] == pc;
    forall d | 0 <= d < |s.cpus| ensures Rescued(s', d) {
      assert Rescued(s, d);
      if j :| 0 <= j < |s.thr| && Rescuer(s.thr[j], d) { assert s'.thr[j] == s.thr[j]; }
    }
  }

  /** A waker that lets go of p, which it has taken, is responsible for no other task. */
  lemma WakerKeepsOthers(s: State, i: nat, p: nat, c: nat, pc: Pc)
    requires i < |s.thr| && s.thr[i] == WQueue(p, c) && (pc == WKick(p, c) || pc == WOut(p))
    ensures OthersKept(s, i, p, pc) && LocksFree(s, i, pc) && forall d :: !Rescuer(s.thr[i], d)
  {
  }

  /** A task that thread i has taken concerns no other thread while CPU and state stay. */
  lemma TakenIsOwn(s: State, i: nat, p: nat, x': Task)
    requires p < |s.tasks| && s.tasks[p].at == Taken(i) && x'.cpu == s.tasks[p].cpu
    requires x'.state == s.tasks[p].state && !x'.onRq.Migrating?
    ensures OthersUnharmed(s, i, p, x')
  {
  }

  /** llist_add of p to the wake_list of c. */
  function ListedTask(t: Task, c: nat): Task {
    t.(at := Listed(c), remoteQueued := t.remoteQueued + 1)
  }

  function ListedCpu(y: Cpu, p: nat): Cpu {
    y.(wakeList := [p] + y.wakeList)
  }

  function ListRemote(s: State, i: nat, p: nat, c: nat, pc: Pc): State
    requires i < |s.thr| && p < |s.tasks| && c < |s.cpus|
  {
    Change(s, i, p, ListedTask(s.tasks[p], c), c, ListedCpu(s.cpus[c], p), pc)
  }

  lemma ListIsRescued(s: State, i: nat, p: nat, c: nat, x': Task, y': Cpu, pc: Pc)
    requires Inv(s) && i < |s.thr| && s.thr[i] == WQueue(p, c) && p < |s.tasks| && c < |s.cpus|
    requires pc == if s.cpus[c].wakeList == [] then WKick(p, c) else WOut(p)
    requires y' == ListedCpu(s.cpus[c], p)
    ensures forall d :: 0 <= d < |s.cpus| ==> Rescued(Change(s, i, p, x', c, y', pc), d)
  {
    if s.cpus[c].wakeList == [] {
      AddedIsRescued(s, i, p, x', c, y', pc);
    } else {
      StillRescued(s, i, p, x', c, y', pc);
    }
  }

  lemma ListedTaskOk(s: State, i: nat, p: nat, c: nat, x': Task, y': Cpu, pc: Pc)
    requires Inv(s) && i < |s.thr| && s.thr[i] == WQueue(p, c) && p < |s.tasks| && c < |s.cpus|
    requires x' == ListedTask(s.tasks[p], c) && y' == ListedCpu(s.cpus[c], p) && (pc == WKick(p, c) || pc == WOut(p))
    ensures TaskOk(Change(s, i, p, x', c, y', pc), p)
    ensures PcOk(s.allowed, s.tasks[p := x'], |s.cpus|, i, pc)
    ensures s.tasks[p].at == Taken(i) && s.tasks[p].cpu == c && s.tasks[p].onRq.Off? && !s.tasks[p].onCpu
    ensures Contribution(x') == Contribution(s.tasks[p])
    ensures SameSched(s.cpus[c], y') && y'.queue == s.cpus[c].queue[p := 0]
  {
    assert TaskOk(s, p) && ThreadOk(s, i) && CpuOk(s, c);
    assert y'.wakeList[0] == p;
  }

  lemma StepQueueRemote(s: State, i: nat, p: nat, c: nat, pc: Pc)
    requires Inv(s) && i < |s.thr| && s.thr[i] == WQueue(p, c) && p < |s.tasks| && c < |s.cpus|
    requires pc == if s.cpus[c].wakeList == [] then WKick(p, c) else WOut(p)
    ensures Inv(ListRemote(s, i, p, c, pc))
  {
    var x', y' := ListedTask(s.tasks[p], c), ListedCpu(s.cpus[c], p);
    ListedTaskOk(s, i, p, c, x', y', pc);
    WakerKeepsOthers(s, i, p, c, pc);
    TakenIsOwn(s, i, p, x');
    ListIsRescued(s, i, p, c, x', y', pc);
    ChangeInv(s, i, p, x', c, y', pc);
  }

  /** The CPU record once t, which is p, has been activated on it. */
  function ActivatedCpu(y: Cpu, t: Task, p: nat): Cpu {
    AddLoad(y.(queue := y.queue + multiset{p}), -((if t.contrib then 1 else 0) + Load(t)))
  }

  /** ttwu_activate by a waker or by a drain: x' is p afterwards, y' the CPU record. */
  lemma Activated(s: State, i: nat, p: nat, c: nat, x': Task, y': Cpu, pc: Pc)
    requires Inv(s) && i < |s.thr| && c < |s.cpus| && p < |s.tasks| && s.tasks[p].cpu == c
    requires s.tasks[p].at == Taken(i) || s.tasks[p].at == Draining(i)
    requires x' == s.tasks[p].(onRq := Queued, at := Started(i), remoteActivated := s.tasks[p].remoteQueued)
    requires y' == ActivatedCpu(s.cpus[c], s.tasks[p], p)
    requires LocksFree(s, i, pc) && PcOk(s.allowed, s.tasks[p := x'], |s.cpus|, i, pc) && StartedTask(pc, p)
    requires OthersKept(s, i, p, pc)
    requires forall d :: !Rescuer(s.thr[i], d)
    ensures Inv(Change(s, i, p, x', c, y', pc))
  {
    assert TaskOk(s, p) && CpuOk(s, c);
    assert y'.queue == s.cpus[c].queue[p := 1];
    StillRescued(s, i, p, x', c, y', pc);
    ChangeInv(s, i, p, x', c, y', pc);
  }

  function WakeActivate(s: State, i: nat, p: nat, c: nat): State
    requires i < |s.thr| && p < |s.tasks| && c < |s.cpus|
  {
    var t, y := s.tasks[p], s.cpus[c];
    Change(s, i, p, t.(onRq := Queued, at := Started(i)), c,
      ActivatedCpu(y, t, p), WWake(p, c))
  }

  lemma StepActivate(s: State, i: nat, p: nat, c: nat, x': Task)
    requires Inv(s) && i < |s.thr| && s.thr[i] == WAct(p, c)
    requires x' == s.tasks[p].(onRq := Queued, at := Started(i))
    ensures PcOk(s.allowed, s.tasks[p := x'], |s.cpus|, i, WWake(p, c))
    ensures s.tasks[p].at == Taken(i) && s.tasks[p].cpu == c
    ensures x' == s.tasks[p].(onRq := Queued, at := Started(i), remoteActivated := s.tasks[p].remoteQueued)
  {
    assert ThreadOk(s, i) && TaskOk(s, p);
  }

  lemma ActivatorKeepsOthers(s: State, i: nat, p: nat, c: nat)
    requires i < |s.thr| && s.thr[i] == WAct(p, c)
    ensures OthersKept(s, i, p, WWake(p, c)) && LocksFree(s, i, WWake(p, c))
    ensures forall d :: !Rescuer(s.thr[i], d)
  {
  }

  lemma StepActivateInv(s: State, i: nat, p: nat, c: nat)
    requires Inv(s) && i < |s.thr| && s.thr[i] == WAct(p, c)
    ensures Inv(WakeActivate(s, i, p, c))
  {
    var t, y := s.tasks[p], s.cpus[c];
    var x' := t.(onRq := Queued, at := Started(i));
    StepActivate(s, i, p, c, x');
    ActivatorKeepsOthers(s, i, p, c);
    Activated(s, i, p, c, x', ActivatedCpu(y, t, p), WWake(p, c));
  }

  lemma StarterKeepsOthers(s: State, i: nat, p: nat, c: nat, pc: Pc)
    requires i < |s.thr|
    requires || (s.thr[i] == WWake(p, c) && pc == WOut(p))
             || (s.thr[i].DWake? && s.thr[i].p == p && s.thr[i].c == c && pc == DLoop(c, s.thr[i].l))
    ensures OthersKept(s, i, p, pc) && LocksFree(s, i, pc) && forall d :: !Rescuer(s.thr[i], d)
  {
  }

  /** A task that thread i has activated concerns no other thread while its CPU stays. */
  lemma StartedIsOwn(s: State, i: nat, p: nat, x': Task)
    requires p < |s.tasks| && s.tasks[p].at == Started(i) && x'.cpu == s.tasks[p].cpu
    requires x'.state.Running? && !x'.onRq.Migrating?
    ensures OthersUnharmed(s, i, p, x')
  {
  }

  lemma StartedIs(s: State, i: nat, p: nat)
    requires Inv(s) && i < |s.thr| && p < |s.tasks| && StartedTask(s.thr[i], p)
    ensures s.tasks[p].at == Started(i) && s.tasks[p].onRq.Queued? && !s.tasks[p].onCpu
  {
    assert ThreadOk(s, i) && TaskOk(s, p);
  }

  lemma StartedTaskOk(s: State, i: nat, p: nat, x': Task, pc: Pc)
    requires Inv(s) && i < |s.thr| && p < |s.tasks| && s.tasks[p].at == Started(i)
    requires x' == s.tasks[p].(state := Running, at := OnQueue)
    ensures TaskOk(SetPc(SetTask(s, p, x'), i, pc), p)
  {
    assert TaskOk(s, p);
  }

  lemma StartedPcOk(s: State, i: nat, p: nat, c: nat, pc: Pc, x': Task)
    requires Inv(s) && i < |s.thr| && p < |s.tasks| && x' == s.tasks[p].(state := Running, at := OnQueue)
    requires || (s.thr[i] == WWake(p, c) && pc == WOut(p))
             || (s.thr[i].DWake? && s.thr[i].p == p && s.thr[i].c == c && pc == DLoop(c, s.thr[i].l))
    ensures PcOk(s.allowed, s.tasks[p := x'], |s.cpus|, i, pc)
  {
    assert ThreadOk(s, i);
  }

  lemma StepStarted(s: State, i: nat, p: nat, c: nat, pc: Pc)
    requires Inv(s) && i < |s.thr| && p < |s.tasks|
    requires || (s.thr[i] == WWake(p, c) && pc == WOut(p))
             || (s.thr[i].DWake? && s.thr[i].p == p && s.thr[i].c == c && pc == DLoop(c, s.thr[i].l))
    ensures Inv(SetPc(SetRunning(s, p), i, pc))
  {
    var x' := s.tasks[p].(state := Running, at := OnQueue);
    StartedIs(s, i, p);
    StartedTaskOk(s, i, p, x', pc);
    StartedPcOk(s, i, p, c, pc, x');
    StarterKeepsOthers(s, i, p, c, pc);
    StartedIsOwn(s, i, p, x');
    TaskOnly(s, i, p, x', pc);
  }

  /** CPU c's record changes in its interrupt and idle flags only. */
  ghost predicate FlagsDiffer(s: State, c: nat, y': Cpu)
    requires c < |s.cpus|
  {
    && y' == s.cpus[c].(ipi := y'.ipi, polling := y'.polling, needResched := y'.needResched)
    && (y'.polling ==> y'.curr == y'.idle && y'.sched.SOut?)
  }

  lemma FlagsTask(s: State, c: nat, y': Cpu, t: nat)
    requires Inv(s) && c < |s.cpus| && FlagsDiffer(s, c, y') && t < |s.tasks|
    ensures TaskOk(s.(cpus := s.cpus[c := y']), t)
  {
    assert TaskOk(s, t);
  }

  lemma FlagsCpu(s: State, c: nat, y': Cpu, d: nat)
    requires Inv(s) && c < |s.cpus| && FlagsDiffer(s, c, y') && d < |s.cpus|
    requires Rescued(s.(cpus := s.cpus[c := y']), c)
    ensures CpuOk(s.(cpus := s.cpus[c := y']), d) && Rescued(s.(cpus := s.cpus[c := y']), d)
  {
    assert CpuOk(s, d) && Rescued(s, d);
  }

  lemma FlagsLocks(s: State, c: nat, y': Cpu)
    requires Inv(s) && c < |s.cpus| && FlagsDiffer(s, c, y')
    ensures Shape(s.(cpus := s.cpus[c := y'])) && LocksOk(s.(cpus := s.cpus[c := y']))
  {
  }

  /** Interrupt and idle flags of CPU c change. */
  lemma FlagsOnly(s: State, c: nat, y': Cpu)
    requires Inv(s) && c < |s.cpus| && FlagsDiffer(s, c, y')
    requires Rescued(s.(cpus := s.cpus[c := y']), c)
    ensures Inv(s.(cpus := s.cpus[c := y']))
  {
    var s' := s.(cpus := s.cpus[c := y']);
    FlagsLocks(s, c, y');
    forall t | 0 <= t < |s.tasks| ensures TaskOk(s', t) { FlagsTask(s, c, y', t); }
    forall i | 0 <= i < |s.thr| ensures ThreadOk(s', i) { assert ThreadOk(s, i); }
    forall d | 0 <= d < |s.cpus| ensures CpuOk(s', d) && Rescued(s', d) { FlagsCpu(s, c, y', d); }
    SumNrUpdate(s.cpus, c, y');
  }

  lemma SwapSums(s: State, p: nat, c: nat, d: nat)
    requires Inv(s) && p < |s.tasks| && c < |s.cpus| && d < |s.cpus| && c != d
    ensures SumNr(SwapTask(s, p, c, d).cpus) == SumLoad(SwapTask(s, p, c, d).tasks)
  {
    var t := s.tasks[p];
    if t.onRq.Queued? {
      var src := AddLoad(s.cpus[c].(queue := s.cpus[c].queue - multiset{p}), Load(t));
      var dst := AddLoad(s.cpus[d].(queue := s.cpus[d].queue + multiset{p}), -Load(t));
      SumNrUpdate(s.cpus, c, src);
      SumNrUpdate(s.cpus[c := src], d, dst);
      SumLoadUpdate(s.tasks, p, t.(cpu := d));
    }
  }

  lemma SwapCpu(s: State, p: nat, c: nat, d: nat, e: nat)
    requires Inv(s) && p < |s.tasks| && c < |s.cpus| && d < |s.cpus| && c != d && e < |s.cpus|
    requires s.tasks[p].cpu == c && s.tasks[p].at == OnQueue && s.tasks[p].onRq.Queued?
    requires !s.tasks[p].onCpu && {c, d} <= s.allowed[p]
    ensures CpuOk(SwapTask(s, p, c, d), e)
  {
    var x' := s.tasks[p].(cpu := d);
    var y' := SwapTask(s, p, c, d).cpus[e];
    assert CpuOk(s, e);
    assert y'.queue == s.cpus[e].queue[p := if e == d then 1 else 0];
    MoveQueue(s.tasks, p, x', e, s.cpus[e].queue);
    MoveSched(s.allowed, s.tasks, p, x', e, s.cpus[e], y');
    MoveWakeList(s.tasks, p, x', e, s.cpus[e].wakeList);
  }

  lemma MoveQueue(ts: seq<Task>, p: nat, x': Task, e: nat, q: multiset<nat>)
    requires p < |ts| && QueueOk(ts, e, q)
    ensures QueueOk(ts[p := x'], e, q[p := if InQueue(x', e) then 1 else 0])
  {
  }

  lemma MoveSched(allowed: seq<set<nat>>, ts: seq<Task>, p: nat, x': Task, e: nat, y: Cpu, y': Cpu)
    requires |allowed| == |ts| && p < |ts| && SchedOk(allowed, ts, e, y) && SameSched(y, y') && !ts[p].onCpu
    requires x'.cpu in allowed[p]
    ensures SchedOk(allowed, ts[p := x'], e, y')
  {
  }

  lemma MoveWakeList(ts: seq<Task>, p: nat, x': Task, e: nat, l: seq<nat>)
    requires p < |ts| && WakeListOk(ts, e, l) && x'.at == ts[p].at
    ensures WakeListOk(ts[p := x'], e, l)
  {
  }

  lemma SwapThread(s: State, i: nat, p: nat, x': Task, pc: Pc, j: nat)
    requires Inv(s) && i < |s.thr| && j < |s.thr| && p < |s.tasks| && HoldsPi(s.thr[i], p)
    requires x' == s.tasks[p].(cpu := x'.cpu) && s.tasks[p].at == OnQueue
    requires PcOk(s.allowed, s.tasks[p := x'], |s.cpus|, i, pc)
    ensures PcOk(s.allowed, s.tasks[p := x'], |s.cpus|, j, s.thr[i := pc][j])
  {
    if j != i {
      assert ThreadOk(s, j);
      if HoldsPi(s.thr[j], p) { SolePi(s, i, j, p); }
      HarmlessPc(s.allowed, s.tasks, |s.cpus|, p, x', j, s.thr[j]);
    }
  }

  /** s1 is s after p has gone to CPU d: the records of the CPUs differ in their queues and counters at most. */
  ghost predicate Swapped(s: State, s1: State, p: nat, d: nat)
    requires p < |s.tasks|
  {
    && s1.allowed == s.allowed && s1.pi == s.pi && s1.rq == s.rq && s1.thr == s.thr
    && s1.tasks == s.tasks[p := s.tasks[p].(cpu := d)] && |s1.cpus| == |s.cpus|
    && forall e :: 0 <= e < |s.cpus| ==> SameButQueue(s.cpus[e], s1.cpus[e])
  }

  predicate SameButQueue(y: Cpu, y': Cpu) {
    y' == y.(queue := y'.queue, nrUnint := y'.nrUnint)
  }

  lemma SwapMoves(s: State, p: nat, c: nat, d: nat)
    requires Shape(s) && p < |s.tasks| && c < |s.cpus| && d < |s.cpus| && c != d && s.tasks[p].onRq.Queued?
    ensures Swapped(s, SwapTask(s, p, c, d), p, d)
  {
  }

  lemma SwappedTaskOk(s: State, s1: State, i: nat, p: nat, d: nat, pc: Pc)
    requires Inv(s) && i < |s.thr| && p < |s.tasks| && d < |s.cpus| && Swapped(s, s1, p, d)
    requires s.tasks[p].at == OnQueue && !s.tasks[p].onCpu && d in s.allowed[p]
    ensures TaskOk(SetPc(s1, i, pc), p)
  {
    assert TaskOk(s, p);
  }

  lemma OtherTaskOk(s: State, s1: State, i: nat, p: nat, d: nat, pc: Pc, t: nat)
    requires Inv(s) && i < |s.thr| && p < |s.tasks| && t < |s.tasks| && t != p && Swapped(s, s1, p, d)
    requires s.thr[i].SwapOne? || s.thr[i].SwapTwo?
    ensures TaskOk(SetPc(s1, i, pc), t)
  {
    assert TaskOk(s, t);
    assert SameButQueue(s.cpus[s.tasks[t].cpu], s1.cpus[s.tasks[t].cpu]);
  }

  lemma SwapLocks(s: State, s1: State, i: nat, p: nat, d: nat, pc: Pc)
    requires Inv(s) && i < |s.thr| && p < |s.tasks| && d < |s.cpus| && Swapped(s, s1, p, d)
    requires LocksFree(s, i, pc) && InRange(pc, |s.tasks|, |s.cpus|)
    ensures Shape(SetPc(s1, i, pc)) && LocksOk(SetPc(s1, i, pc))
  {
    forall e | 0 <= e < |s.cpus| ensures SameButQueue(s.cpus[e], s1.cpus[e]) { }
    PcLocksFrom(s, s1, i, pc);
  }

  lemma SwapRescued(s: State, s1: State, i: nat, p: nat, d: nat, pc: Pc, e: nat)
    requires Inv(s) && i < |s.thr| && p < |s.tasks| && e < |s.cpus| && Swapped(s, s1, p, d)
    requires !Rescuer(s.thr[i], e)
    ensures Rescued(SetPc(s1, i, pc), e)
  {
    var s' := SetPc(s1, i, pc);
    assert Rescued(s, e) && SameButQueue(s.cpus[e], s1.cpus[e]);
    if j :| 0 <= j < |s.thr| && Rescuer(s.thr[j], e) { assert s'.thr[j] == s.thr[j]; }
  }

  lemma SwapTasksOk(s: State, s1: State, i: nat, p: nat, d: nat, pc: Pc)
    requires Inv(s) && i < |s.thr| && p < |s.tasks| && d < |s.cpus| && Swapped(s, s1, p, d)
    requires s.thr[i].SwapOne? || s.thr[i].SwapTwo?
    requires s.tasks[p].at == OnQueue && !s.tasks[p].onCpu && d in s.allowed[p]
    ensures forall t :: 0 <= t < |s.tasks| ==> TaskOk(SetPc(s1, i, pc), t)
  {
    forall t | 0 <= t < |s.tasks| ensures TaskOk(SetPc(s1, i, pc), t) {
      if t == p { SwappedTaskOk(s, s1, i, p, d, pc); } else { OtherTaskOk(s, s1, i, p, d, pc, t); }
    }
  }

  lemma SwapThreadsOk(s: State, s1: State, i: nat, p: nat, d: nat, pc: Pc)
    requires Inv(s) && i < |s.thr| && p < |s.tasks| && d < |s.cpus| && Swapped(s, s1, p, d)
    requires HoldsPi(s.thr[i], p) && PcOk(s.allowed, s1.tasks, |s.cpus|, i, pc) && s.tasks[p].at == OnQueue
    ensures forall j :: 0 <= j < |s.thr| ==> ThreadOk(SetPc(s1, i, pc), j)
  {
    forall j | 0 <= j < |s.thr| ensures ThreadOk(SetPc(s1, i, pc), j) {
      SwapThread(s, i, p, s.tasks[p].(cpu := d), pc, j);
    }
  }

  lemma SwapCpusOk(s: State, s1: State, i: nat, p: nat, d: nat, pc: Pc)
    requires Inv(s) && i < |s.thr| && p < |s.tasks| && d < |s.cpus| && Swapped(s, s1, p, d)
    requires s.thr[i].SwapOne? || s.thr[i].SwapTwo?
    requires forall e :: 0 <= e < |s.cpus| ==> CpuOk(s1, e)
    ensures forall e :: 0 <= e < |s.cpus| ==> CpuOk(SetPc(s1, i, pc), e)
    ensures forall e :: 0 <= e < |s.cpus| ==> Rescued(SetPc(s1, i, pc), e)
  {
    forall e | 0 <= e < |s.cpus| ensures CpuOk(SetPc(s1, i, pc), e) && Rescued(SetPc(s1, i, pc), e) {
      assert CpuOk(s1, e);
      SwapRescued(s, s1, i, p, d, pc, e);
    }
  }

  /** A settled task of SwapOne or SwapTwo goes to CPU d, whose records already account for it. */
  lemma SwapFits(s: State, s1: State, i: nat, p: nat, d: nat, pc: Pc)
    requires Inv(s) && i < |s.thr| && p < |s.tasks| && d < |s.cpus| && Swapped(s, s1, p, d)
    requires s.thr[i].SwapOne? || s.thr[i].SwapTwo?
    requires LocksFree(s, i, pc) && HoldsPi(s.thr[i], p) && PcOk(s.allowed, s1.tasks, |s.cpus|, i, pc)
    requires s.tasks[p].at == OnQueue && !s.tasks[p].onCpu && d in s.allowed[p]
    requires forall e :: 0 <= e < |s.cpus| ==> CpuOk(s1, e)
    requires SumNr(s1.cpus) == SumLoad(s1.tasks)
    ensures Inv(SetPc(s1, i, pc))
  {
    SwapLocks(s, s1, i, p, d, pc);
    SwapThreadsOk(s, s1, i, p, d, pc);
    SwapTasksOk(s, s1, i, p, d, pc);
    SwapCpusOk(s, s1, i, p, d, pc);
  }

  lemma SwapQueued(s: State, i: nat, p: nat, c: nat, d: nat, pc: Pc)
    requires Inv(s) && i < |s.thr| && p < |s.tasks| && c < |s.cpus| && d < |s.cpus| && c != d
    requires s.thr[i].SwapOne? || s.thr[i].SwapTwo?
    requires LocksFree(s, i, pc) && HoldsPi(s.thr[i], p)
    requires PcOk(s.allowed, s.tasks[p := s.tasks[p].(cpu := d)], |s.cpus|, i, pc)
    requires s.tasks[p].cpu == c && s.tasks[p].at == OnQueue && s.tasks[p].onRq.Queued? && !s.tasks[p].onCpu
    requires {c, d} <= s.allowed[p]
    ensures Inv(SetPc(SwapTask(s, p, c, d), i, pc))
  {
    SwapMoves(s, p, c, d);
    forall e | 0 <= e < |s.cpus| ensures CpuOk(SwapTask(s, p, c, d), e) { SwapCpu(s, p, c, d, e); }
    SwapSums(s, p, c, d);
    SwapFits(s, SwapTask(s, p, c, d), i, p, d, pc);
  }

  /** Thread i is about to send p from CPU c to CPU d, and goes on at pc. */
  predicate SwapTurn(was: Pc, p: nat, c: nat, d: nat, pc: Pc) {
    || (was.SwapOne? && p == was.p && c == was.c && d == was.d && pc == SwapTwo(p, was.q, c, d))
    || (was.SwapTwo? && p == was.q && c == was.d && d == was.c && pc == SwapDone(was.p, p, d, c))
  }

  lemma SwapFacts(s: State, i: nat, p: nat, c: nat, d: nat, pc: Pc)
    requires Inv(s) && i < |s.thr| && SwapTurn(s.thr[i], p, c, d, pc)
    ensures p < |s.tasks| && c < |s.cpus| && d < |s.cpus| && c != d
    ensures LocksFree(s, i, pc) && HoldsPi(s.thr[i], p) && HoldsRq(s.thr[i], c)
    ensures PcOk(s.allowed, s.tasks, |s.cpus|, i, pc)
    ensures PcOk(s.allowed, s.tasks[p := s.tasks[p].(cpu := d)], |s.cpus|, i, pc)
    ensures s.tasks[p].cpu == c && {c, d} <= s.allowed[p]
  {
    assert ThreadOk(s, i) && TaskOk(s, p);
  }

  lemma SwapInv(s: State, i: nat, p: nat, c: nat, d: nat, pc: Pc)
    requires Inv(s) && i < |s.thr| && SwapTurn(s.thr[i], p, c, d, pc) && !s.tasks[p].onCpu
    ensures Inv(SetPc(SwapTask(s, p, c, d), i, pc))
  {
    SwapFacts(s, i, p, c, d, pc);
    if !s.tasks[p].onRq.Queued? {
      LightStep(s, i, pc);
    } else {
      Settled(s, i, p);
      SwapQueued(s, i, p, c, d, pc);
    }
  }

  lemma {:induction false} RelabelSum(ts: seq<Task>, us: seq<Task>)
    requires |ts| == |us| && forall t :: 0 <= t < |ts| ==> Contribution(us[t]) == Contribution(ts[t])
    ensures SumLoad(us) == SumLoad(ts)
  {
    if ts == [] {
    } else {
      RelabelSum(ts[..|ts| - 1], us[..|us| - 1]);
    }
  }

  ghost predicate AllListed(ts: seq<Task>, l: seq<nat>, c: nat) {
    forall t :: t in l ==> t < |ts| && ts[t].at == Listed(c) && !ts[t].onCpu && ts[t].cpu == c
  }

  lemma RelabelQueue(ts: seq<Task>, l: seq<nat>, i: nat, e: nat, q: multiset<nat>)
    requires QueueOk(ts, e, q)
    ensures QueueOk(Relabel(ts, l, i), e, q)
  {
  }

  lemma RelabelSched(allowed: seq<set<nat>>, ts: seq<Task>, l: seq<nat>, i: nat, c: nat, e: nat, y: Cpu, y': Cpu)
    requires |allowed| == |ts| && AllListed(ts, l, c) && SchedOk(allowed, ts, e, y) && SameSched(y, y')
    ensures SchedOk(allowed, Relabel(ts, l, i), e, y')
  {
  }

  lemma RelabelWakeList(ts: seq<Task>, l: seq<nat>, i: nat, c: nat, e: nat, m: seq<nat>)
    requires AllListed(ts, l, c) && WakeListOk(ts, e, m) && e != c
    ensures WakeListOk(Relabel(ts, l, i), e, m)
  {
    assert forall k :: 0 <= k < |m| ==> m[k] !in l;
  }

  lemma RelabelPc(allowed: seq<set<nat>>, ts: seq<Task>, nc: nat, l: seq<nat>, i: nat, c: nat, j: nat, pc: Pc)
    requires |allowed| == |ts| && AllListed(ts, l, c) && PcOk(allowed, ts, nc, j, pc)
    ensures PcOk(allowed, Relabel(ts, l, i), nc, j, pc)
  {
  }

  lemma ListedHere(s: State, c: nat)
    requires Inv(s) && c < |s.cpus|
    ensures AllListed(s.tasks, s.cpus[c].wakeList, c)
  {
    var l := s.cpus[c].wakeList;
    assert CpuOk(s, c);
    forall t | t in l ensures t < |s.tasks| && s.tasks[t].at == Listed(c) && !s.tasks[t].onCpu && s.tasks[t].cpu == c {
      assert TaskOk(s, t);
    }
  }

  lemma TakeAllListed(s: State, i: nat, c: nat, t: nat)
    requires Inv(s) && i < |s.thr| && s.thr[i] == DStart(c) && t < |s.tasks| && t in s.cpus[c].wakeList
    requires AllListed(s.tasks, s.cpus[c].wakeList, c)
    ensures TaskOk(TakeAll(s, i, c), t)
  {
    var s' := TakeAll(s, i, c);
    assert TaskOk(s, t);
    assert s'.tasks[t] == s.tasks[t].(at := Draining(i)) && DrainingTask(s'.thr[i], t);
  }

  lemma TakeAllOther(s: State, s': State, i: nat, c: nat, t: nat)
    requires |s.tasks| == |s.allowed| && t < |s.tasks| && TaskOk(s, t) && i < |s.thr| && s.thr[i] == DStart(c)
    requires c < |s.cpus| && t !in s.cpus[c].wakeList && s'.cpus == s.cpus[c := s.cpus[c].(wakeList := [])]
    requires s'.allowed == s.allowed && |s'.tasks| == |s.tasks| && s'.tasks[t] == s.tasks[t]
    requires s'.thr == s.thr[i := DLock(c, s.cpus[c].wakeList)]
    ensures TaskOk(s', t)
  {
  }

  lemma TakeAllLocks(s: State, i: nat, c: nat)
    requires Inv(s) && i < |s.thr| && s.thr[i] == DStart(c)
    ensures Shape(TakeAll(s, i, c)) && LocksOk(TakeAll(s, i, c))
  {
    var l := s.cpus[c].wakeList;
    assert ThreadOk(s, i);
    var s1 := s.(tasks := Relabel(s.tasks, l, i), cpus := s.cpus[c := s.cpus[c].(wakeList := [])]);
    PcLocksFrom(s, s1, i, DLock(c, l));
  }

  lemma TakeAllRescued(s: State, i: nat, c: nat, e: nat)
    requires Inv(s) && i < |s.thr| && s.thr[i] == DStart(c) && e < |s.cpus|
    ensures Rescued(TakeAll(s, i, c), e)
  {
    var s' := TakeAll(s, i, c);
    assert Rescued(s, e);
    if j :| 0 <= j < |s.thr| && Rescuer(s.thr[j], e) { assert j != i ==> s'.thr[j] == s.thr[j]; }
  }

  lemma RelabelList(ts: seq<Task>, l: seq<nat>, i: nat, c: nat)
    requires AllListed(ts, l, c) && Distinct(l)
    ensures ListOk(Relabel(ts, l, i), i, c, l)
  {
    assert forall k :: 0 <= k < |l| ==> l[k] in l;
  }

  lemma TakeAllDrainer(s: State, i: nat, c: nat)
    requires Inv(s) && i < |s.thr| && s.thr[i] == DStart(c)
    requires AllListed(s.tasks, s.cpus[c].wakeList, c) && CpuOk(s, c)
    ensures ThreadOk(TakeAll(s, i, c), i)
  {
    RelabelList(s.tasks, s.cpus[c].wakeList, i, c);
    assert TakeAll(s, i, c).thr[i] == DLock(c, s.cpus[c].wakeList);
  }

  lemma TakeAllThread(s: State, i: nat, c: nat, j: nat)
    requires Inv(s) && i < |s.thr| && s.thr[i] == DStart(c) && j < |s.thr| && j != i
    requires AllListed(s.tasks, s.cpus[c].wakeList, c)
    ensures ThreadOk(TakeAll(s, i, c), j)
  {
    assert ThreadOk(s, j);
    RelabelPc(s.allowed, s.tasks, |s.cpus|, s.cpus[c].wakeList, i, c, j, s.thr[j]);
  }

  lemma TakeAllCpu(s: State, i: nat, c: nat, e: nat)
    requires Inv(s) && i < |s.thr| && s.thr[i] == DStart(c) && e < |s.cpus|
    requires AllListed(s.tasks, s.cpus[c].wakeList, c)
    ensures CpuOk(TakeAll(s, i, c), e)
  {
    var l := s.cpus[c].wakeList;
    assert CpuOk(s, e);
    RelabelQueue(s.tasks, l, i, e, s.cpus[e].queue);
    RelabelSched(s.allowed, s.tasks, l, i, c, e, s.cpus[e], TakeAll(s, i, c).cpus[e]);
    if e != c { RelabelWakeList(s.tasks, l, i, c, e, s.cpus[e].wakeList); }
  }

  lemma TakeAllSums(s: State, i: nat, c: nat)
    requires Inv(s) && i < |s.thr| && s.thr[i] == DStart(c) && AllListed(s.tasks, s.cpus[c].wakeList, c)
    ensures SumNr(TakeAll(s, i, c).cpus) == SumLoad(TakeAll(s, i, c).tasks)
  {
    RelabelSum(s.tasks, TakeAll(s, i, c).tasks);
    SumNrUpdate(s.cpus, c, s.cpus[c].(wakeList := []));
  }

  lemma StepTakeAll(s: State, i: nat, c: nat)
    requires Inv(s) && i < |s.thr| && s.thr[i] == DStart(c)
    ensures Inv(TakeAll(s, i, c))
  {
    var s' := TakeAll(s, i, c);
    assert ThreadOk(s, i);
    assert |s'.tasks| == |s.tasks| && |s'.cpus| == |s.cpus| && |s'.thr| == |s.thr| && s'.allowed == s.allowed;
    ListedHere(s, c);
    TakeAllLocks(s, i, c);
    TakeAllSums(s, i, c);
    assert CpuOk(s, c);
    forall t | 0 <= t < |s.tasks| ensures TaskOk(s', t) {
      if t in s.cpus[c].wakeList { TakeAllListed(s, i, c, t); } else { TakeAllOther(s, s', i, c, t); }
    }
    forall j | 0 <= j < |s.thr| ensures ThreadOk(s', j) {
      if j == i { TakeAllDrainer(s, i, c); } else { TakeAllThread(s, i, c, j); }
    }
    forall e | 0 <= e < |s.cpus| ensures CpuOk(s', e) && Rescued(s', e) {
      TakeAllCpu(s, i, c, e);
      TakeAllRescued(s, i, c, e);
    }
  }

  lemma BeginInv(s: State, i: nat, a: Act)
    requires Inv(s) && i < |s.thr| && LockStep(s, i, a).Some? && (s.thr[i].Idle?)
    ensures Inv(LockStep(s, i, a).value)
  {
    assert ThreadOk(s, i);
    if a.TaskRqLock? { LightStep(s, i, TPi(a.p)); } else { LightStep(s, i, RqHeld(a.c)); }
  }

  lemma AimedInv(s: State, i: nat, p: nat, c: nat)
    requires Inv(s) && i < |s.thr| && s.thr[i] == TPi(p) && c < |s.cpus|
    ensures Inv(SetPc(s, i, TRead(p, c)))
  {
    LightStep(s, i, TRead(p, c));
  }

  lemma TakenInv(s: State, i: nat, p: nat, c: nat)
    requires Inv(s) && i < |s.thr| && s.thr[i] == TRead(p, c) && s.rq[c].Free?
    ensures Inv(SetPc(s, i, TLocked(p, c)))
  {
    LightStep(s, i, TLocked(p, c));
  }

  lemma AimInv(s: State, i: nat, a: Act)
    requires Inv(s) && i < |s.thr| && LockStep(s, i, a).Some? && (s.thr[i].TPi? || s.thr[i].TRead?)
    ensures Inv(LockStep(s, i, a).value)
  {
    match s.thr[i]
    case TPi(p) => AimedInv(s, i, p, if a.Go? then s.tasks[p].cpu else a.c);
    case TRead(p, c) => TakenInv(s, i, p, c);
  }

  lemma RecheckInv(s: State, i: nat, a: Act)
    requires Inv(s) && i < |s.thr| && LockStep(s, i, a).Some? && (s.thr[i].TLocked?)
    ensures Inv(LockStep(s, i, a).value)
  {
    assert ThreadOk(s, i);
    var TLocked(p, c) := s.thr[i];
    if s.tasks[p].cpu == c && !s.tasks[p].onRq.Migrating? {
      LightStep(s, i, THold(p, c));
    } else {
      LightStep(s, i, Idle);
    }
  }

  lemma HoldInv(s: State, i: nat, a: Act)
    requires Inv(s) && i < |s.thr| && LockStep(s, i, a).Some? && (s.thr[i].THold? || s.thr[i].RqHeld?)
    ensures Inv(LockStep(s, i, a).value)
  {
    assert ThreadOk(s, i);
    if a.Unlock? { LightStep(s, i, Idle); }
    else { StepDequeue(s, i, a.p, s.thr[i].c, a.dst, s.thr[i].THold?); }
  }

  lemma MoveSetInv(s: State, i: nat, a: Act)
    requires Inv(s) && i < |s.thr| && LockStep(s, i, a).Some? && s.thr[i].MDeq?
    ensures Inv(LockStep(s, i, a).value)
  {
    assert ThreadOk(s, i);
    var MDeq(p, c, dst, b) := s.thr[i];
    StepSetCpu(s, i, p, c, dst, b);
  }

  lemma MoveUnlockInv(s: State, i: nat, a: Act)
    requires Inv(s) && i < |s.thr| && LockStep(s, i, a).Some? && s.thr[i].MSet?
    ensures Inv(LockStep(s, i, a).value)
  {
    assert ThreadOk(s, i);
    var MSet(p, c, dst, b) := s.thr[i];
    PcOnly(s, i, MUnl(p, dst, b));
  }

  lemma MoveRelockInv(s: State, i: nat, a: Act)
    requires Inv(s) && i < |s.thr| && LockStep(s, i, a).Some? && s.thr[i].MUnl?
    ensures Inv(LockStep(s, i, a).value)
  {
    assert ThreadOk(s, i);
    var MUnl(p, dst, b) := s.thr[i];
    PcOnly(s, i, MRe(p, dst, b));
  }

  lemma MoveDoneInv(s: State, i: nat, p: nat, dst: nat, b: bool)
    requires Inv(s) && i < |s.thr| && s.thr[i] == MDone(p, dst, b)
    ensures Inv(SetPc(s, i, Idle))
  {
    LightStep(s, i, Idle);
  }

  lemma RequeueInv(s: State, i: nat, a: Act, p: nat, dst: nat, b: bool)
    requires Inv(s) && i < |s.thr| && s.thr[i] == MRe(p, dst, b)
    ensures LockStep(s, i, a).Some? && Inv(LockStep(s, i, a).value)
  {
    StepEnqueue(s, i, p, dst, b);
  }

  lemma LockInv(s: State, i: nat, a: Act)
    requires Inv(s) && i < |s.thr| && LockStep(s, i, a).Some?
    ensures Inv(LockStep(s, i, a).value)
  {
    var pc := s.thr[i];
    if pc.Idle? { BeginInv(s, i, a); }
    else if pc.TPi? || pc.TRead? { AimInv(s, i, a); }
    else if pc.TLocked? { RecheckInv(s, i, a); }
    else if pc.THold? || pc.RqHeld? { HoldInv(s, i, a); }
    else if pc.MDeq? { MoveSetInv(s, i, a); }
    else if pc.MSet? { MoveUnlockInv(s, i, a); }
    else if pc.MUnl? { MoveRelockInv(s, i, a); }
    else if pc.MRe? { RequeueInv(s, i, a, pc.p, pc.dst, pc.pi); }
    else { MoveDoneInv(s, i, pc.p, pc.dst, pc.pi); }
  }

  lemma SwapLockedInv(s: State, i: nat, p: nat, q: nat, c: nat, d: nat)
    requires Inv(s) && i < |s.thr| && s.thr[i].Idle? && p < |s.tasks| && q < |s.tasks| && p != q
    requires c < |s.cpus| && d < |s.cpus| && c != d
    requires s.pi[p].Free? && s.pi[q].Free? && s.rq[c].Free? && s.rq[d].Free?
    ensures Inv(SetPc(s, i, SwapHeld(p, q, c, d)))
  {
    LightStep(s, i, SwapHeld(p, q, c, d));
  }

  lemma SwapDoneInv(s: State, i: nat)
    requires Inv(s) && i < |s.thr| && s.thr[i].SwapDone?
    ensures Inv(SetPc(s, i, Idle))
  {
    LightStep(s, i, Idle);
  }

  lemma SwapBeginInv(s: State, i: nat, a: Act)
    requires Inv(s) && i < |s.thr| && SwapStep(s, i, a).Some? && (s.thr[i].Idle? || s.thr[i].SwapDone?)
    ensures Inv(SwapStep(s, i, a).value)
  {
    if s.thr[i].Idle? { SwapLockedInv(s, i, a.p, a.q, a.c, a.d); } else { SwapDoneInv(s, i); }
  }

  lemma SwapAgreedInv(s: State, i: nat, p: nat, q: nat, c: nat, d: nat)
    requires Inv(s) && i < |s.thr| && s.thr[i] == SwapHeld(p, q, c, d)
    requires s.tasks[q].cpu == d && s.tasks[p].cpu == c && d in s.allowed[p] && c in s.allowed[q]
    ensures Inv(SetPc(s, i, SwapOne(p, q, c, d)))
  {
    LightStep(s, i, SwapOne(p, q, c, d));
  }

  lemma SwapRefusedInv(s: State, i: nat, p: nat, q: nat, c: nat, d: nat)
    requires Inv(s) && i < |s.thr| && s.thr[i] == SwapHeld(p, q, c, d)
    ensures Inv(SetPc(s, i, SwapDone(p, q, c, d)))
  {
    LightStep(s, i, SwapDone(p, q, c, d));
  }

  lemma SwapCheckInv(s: State, i: nat, a: Act)
    requires Inv(s) && i < |s.thr| && SwapStep(s, i, a).Some? && (s.thr[i].SwapHeld?)
    ensures Inv(SwapStep(s, i, a).value)
  {
    var SwapHeld(p, q, c, d) := s.thr[i];
    if s.tasks[q].cpu == d && s.tasks[p].cpu == c && d in s.allowed[p] && c in s.allowed[q] {
      SwapAgreedInv(s, i, p, q, c, d);
    } else {
      SwapRefusedInv(s, i, p, q, c, d);
    }
  }

  lemma SwapTurnInv(s: State, i: nat, a: Act)
    requires Inv(s) && i < |s.thr| && SwapStep(s, i, a).Some? && (s.thr[i].SwapOne? || s.thr[i].SwapTwo?)
    ensures Inv(SwapStep(s, i, a).value)
  {
    assert ThreadOk(s, i);
    var p, q, c, d := s.thr[i].p, s.thr[i].q, s.thr[i].c, s.thr[i].d;
    if s.thr[i].SwapOne? {
      SwapInv(s, i, p, c, d, SwapTwo(p, q, c, d));
    } else {
      SwapInv(s, i, q, d, c, SwapDone(p, q, c, d));
    }
  }

  lemma SwapStepInv(s: State, i: nat, a: Act)
    requires Inv(s) && i < |s.thr| && SwapStep(s, i, a).Some?
    ensures Inv(SwapStep(s, i, a).value)
  {
    if s.thr[i].SwapHeld? { SwapCheckInv(s, i, a); }
    else if s.thr[i].SwapOne? || s.thr[i].SwapTwo? { SwapTurnInv(s, i, a); }
    else { SwapBeginInv(s, i, a); }
  }

  lemma WakeBeginInv(s: State, i: nat, a: Act)
    requires Inv(s) && i < |s.thr| && WakeStep(s, i, a).Some? && s.thr[i].Idle?
    ensures Inv(WakeStep(s, i, a).value)
  {
    assert ThreadOk(s, i);
    LightStep(s, i, WPi(a.p, a.mask));
  }

  lemma WakeMatchInv(s: State, i: nat, p: nat, mask: set<RunState>)
    requires Inv(s) && i < |s.thr| && s.thr[i] == WPi(p, mask) && s.tasks[p].state in mask
    ensures Inv(SetPc(s, i, WTest(p)))
  {
    assert ThreadOk(s, i);
    LightStep(s, i, WTest(p));
  }

  lemma WakeMissInv(s: State, i: nat, p: nat, mask: set<RunState>)
    requires Inv(s) && i < |s.thr| && s.thr[i] == WPi(p, mask) && s.tasks[p].state !in mask
    ensures Inv(SetPc(s, i, WOut(p)))
  {
    assert ThreadOk(s, i);
    LightStep(s, i, WOut(p));
  }

  lemma WakeStateInv(s: State, i: nat, a: Act)
    requires Inv(s) && i < |s.thr| && WakeStep(s, i, a).Some? && s.thr[i].WPi?
    ensures Inv(WakeStep(s, i, a).value)
  {
    var WPi(p, mask) := s.thr[i];
    if s.tasks[p].state in mask { WakeMatchInv(s, i, p, mask); } else { WakeMissInv(s, i, p, mask); }
  }

  lemma WakeTestInv(s: State, i: nat, p: nat)
    requires Inv(s) && i < |s.thr| && s.thr[i] == WTest(p) && !s.tasks[p].onRq.Off?
    ensures Inv(SetPc(s, i, WRead(p)))
  {
    assert ThreadOk(s, i);
    LightStep(s, i, WRead(p));
  }

  lemma WakeAsleepInv(s: State, i: nat, p: nat)
    requires Inv(s) && i < |s.thr| && s.thr[i] == WTest(p) && s.tasks[p].onRq.Off?
    ensures Inv(SetPc(s, i, WSpin(p)))
  {
    assert ThreadOk(s, i) && TaskOk(s, p);
    LightStep(s, i, WSpin(p));
  }

  lemma WakeAimInv(s: State, i: nat, p: nat)
    requires Inv(s) && i < |s.thr| && s.thr[i] == WRead(p)
    ensures Inv(SetPc(s, i, WLock(p, s.tasks[p].cpu)))
  {
    assert ThreadOk(s, i);
    LightStep(s, i, WLock(p, s.tasks[p].cpu));
  }

  lemma WakeTakeInv(s: State, i: nat, p: nat, c: nat)
    requires Inv(s) && i < |s.thr| && s.thr[i] == WLock(p, c) && s.rq[c].Free?
    ensures Inv(SetPc(s, i, WLocked(p, c)))
  {
    assert ThreadOk(s, i);
    LightStep(s, i, WLocked(p, c));
  }

  lemma WakeSettledInv(s: State, i: nat, p: nat, c: nat)
    requires Inv(s) && i < |s.thr| && s.thr[i] == WLocked(p, c) && s.tasks[p].cpu == c && !s.tasks[p].onRq.Migrating?
    ensures Inv(SetPc(s, i, WRemote(p, c)))
  {
    assert ThreadOk(s, i);
    LightStep(s, i, WRemote(p, c));
  }

  lemma WakeRetryInv(s: State, i: nat, p: nat, c: nat)
    requires Inv(s) && i < |s.thr| && s.thr[i] == WLocked(p, c)
    ensures Inv(SetPc(s, i, WRead(p)))
  {
    assert ThreadOk(s, i);
    LightStep(s, i, WRead(p));
  }

  lemma WakeRecheckInv(s: State, i: nat, a: Act)
    requires Inv(s) && i < |s.thr| && WakeStep(s, i, a).Some? && s.thr[i].WLocked?
    ensures Inv(WakeStep(s, i, a).value)
  {
    var WLocked(p, c) := s.thr[i];
    if s.tasks[p].cpu == c && !s.tasks[p].onRq.Migrating? { WakeSettledInv(s, i, p, c); }
    else { WakeRetryInv(s, i, p, c); }
  }

  lemma WakeSpunInv(s: State, i: nat, p: nat)
    requires Inv(s) && i < |s.thr| && s.thr[i] == WSpin(p) && !s.tasks[p].onCpu
    ensures Inv(SetPc(s, i, WSpun(p)))
  {
    assert ThreadOk(s, i);
    LightStep(s, i, WSpun(p));
  }

  lemma WakeOutInv(s: State, i: nat, p: nat)
    requires Inv(s) && i < |s.thr| && s.thr[i] == WOut(p)
    ensures Inv(SetPc(s, i, Idle))
  {
    assert ThreadOk(s, i);
    LightStep(s, i, Idle);
  }

  lemma WakeNotQueuedInv(s: State, i: nat, p: nat, c: nat)
    requires Inv(s) && i < |s.thr| && s.thr[i] == WRemote(p, c) && !s.tasks[p].onRq.Queued?
    ensures Inv(SetPc(s, i, WSpin(p)))
  {
    assert ThreadOk(s, i) && TaskOk(s, p);
    LightStep(s, i, WSpin(p));
  }

  lemma WakeLocalInv(s: State, i: nat, p: nat, c: nat)
    requires Inv(s) && i < |s.thr| && s.thr[i] == WQueue(p, c) && s.rq[c].Free?
    ensures Inv(SetPc(s, i, WAct(p, c)))
  {
    assert ThreadOk(s, i);
    PcOnly(s, i, WAct(p, c));
  }

  lemma ListRemoteIs(s: State, i: nat, p: nat, c: nat, pc: Pc)
    requires Shape(s) && i < |s.thr| && s.thr[i] == WQueue(p, c) && p < |s.tasks| && c < |s.cpus|
    requires pc == if s.cpus[c].wakeList == [] then WKick(p, c) else WOut(p)
    ensures WakeStep(s, i, QueueRemote) == Some(ListRemote(s, i, p, c, pc))
  {
  }

  lemma WakeListInv(s: State, i: nat, p: nat, c: nat, pc: Pc)
    requires Inv(s) && i < |s.thr| && s.thr[i] == WQueue(p, c) && p < |s.tasks| && c < |s.cpus|
    requires pc == if s.cpus[c].wakeList == [] then WKick(p, c) else WOut(p)
    ensures WakeStep(s, i, QueueRemote).Some? && Inv(WakeStep(s, i, QueueRemote).value)
  {
    StepQueueRemote(s, i, p, c, pc);
    ListRemoteIs(s, i, p, c, pc);
  }

  lemma WakeQueueInv(s: State, i: nat, a: Act)
    requires Inv(s) && i < |s.thr| && WakeStep(s, i, a).Some? && (s.thr[i].WQueue?)
    ensures Inv(WakeStep(s, i, a).value)
  {
    assert ThreadOk(s, i);
    if a.QueueLocal? { WakeLocalInv(s, i, s.thr[i].p, s.thr[i].c); }
    else {
      var p, c := s.thr[i].p, s.thr[i].c;
      WakeListInv(s, i, p, c, if s.cpus[c].wakeList == [] then WKick(p, c) else WOut(p));
    }
  }

  lemma WakePlaceInv(s: State, i: nat, a: Act)
    requires Inv(s) && i < |s.thr| && WakeStep(s, i, a).Some? && (s.thr[i].WSpun? || s.thr[i].WPlace?)
    ensures Inv(WakeStep(s, i, a).value)
  {
    if s.thr[i].WSpun? { StepMark(s, i, s.thr[i].p); } else { StepPlace(s, i, s.thr[i].p, a.c); }
  }

  lemma WakeActivateInv(s: State, i: nat, a: Act)
    requires Inv(s) && i < |s.thr| && WakeStep(s, i, a).Some? && (s.thr[i].WAct? || s.thr[i].WWake?)
    ensures Inv(WakeStep(s, i, a).value)
  {
    assert ThreadOk(s, i);
    var p, c := s.thr[i].p, s.thr[i].c;
    if s.thr[i].WWake? { StepStarted(s, i, p, c, WOut(p)); }
    else { StepActivateInv(s, i, p, c); }
  }

  lemma WakeInv(s: State, i: nat, a: Act)
    requires Inv(s) && i < |s.thr| && WakeStep(s, i, a).Some?
    ensures Inv(WakeStep(s, i, a).value)
  {
    var pc := s.thr[i];
    if pc.Idle? { WakeBeginInv(s, i, a); }
    else if pc.WPi? { WakeStateInv(s, i, a); }
    else if pc.WTest? && s.tasks[pc.p].onRq.Off? { WakeAsleepInv(s, i, pc.p); }
    else if pc.WTest? { WakeTestInv(s, i, pc.p); }
    else if pc.WRead? { WakeAimInv(s, i, pc.p); }
    else if pc.WLock? { WakeTakeInv(s, i, pc.p, pc.c); }
    else if pc.WLocked? { WakeRecheckInv(s, i, a); }
    else if pc.WRemote? && s.tasks[pc.p].onRq.Queued? { StepRemote(s, i, pc.p, pc.c); }
    else if pc.WRemote? { WakeNotQueuedInv(s, i, pc.p, pc.c); }
    else if pc.WSpin? { WakeSpunInv(s, i, pc.p); }
    else if pc.WOut? { WakeOutInv(s, i, pc.p); }
    else if pc.WSpun? || pc.WPlace? { WakePlaceInv(s, i, a); }
    else if pc.WQueue? { WakeQueueInv(s, i, a); }
    else if pc.WAct? || pc.WWake? { WakeActivateInv(s, i, a); }
    else if pc.WKick? { KickInv(s, i, pc.p, pc.c, a); }
    else { IpiInv(s, i, pc.p, pc.c, a); }
  }

  /** set_nr_if_polling: either the polling idle task is told, or an IPI will follow. */
  lemma KickPolling(s: State, i: nat, p: nat, c: nat, y': Cpu)
    requires Inv(s) && i < |s.thr| && s.thr[i] == WKick(p, c) && s.cpus[c].polling
    requires y' == s.cpus[c].(needResched := true)
    ensures Inv(SetPc(s.(cpus := s.cpus[c := y']), i, WOut(p)))
  {
    assert ThreadOk(s, i) && CpuOk(s, c);
    FlagsOnly(s, c, y');
    KickedOut(s.(cpus := s.cpus[c := y']), i, p, c);
  }

  lemma KickedOut(s: State, i: nat, p: nat, c: nat)
    requires Inv(s) && i < |s.thr| && s.thr[i] == WKick(p, c) && s.cpus[c].polling && s.cpus[c].needResched
    ensures Inv(SetPc(s, i, WOut(p)))
  {
    assert ThreadOk(s, i);
    PcOnly(s, i, WOut(p));
  }

  lemma KickIpi(s: State, i: nat, p: nat, c: nat)
    requires Inv(s) && i < |s.thr| && s.thr[i] == WKick(p, c)
    ensures Inv(SetPc(s, i, WIpi(p, c)))
  {
    assert ThreadOk(s, i);
    PcOnly(s, i, WIpi(p, c));
  }

  lemma KickIs(s: State, i: nat, p: nat, c: nat, a: Act)
    requires Shape(s) && i < |s.thr| && s.thr[i] == WKick(p, c)
    ensures c < |s.cpus| && WakeStep(s, i, a) == Some(
      if s.cpus[c].polling then SetPc(s.(cpus := s.cpus[c := s.cpus[c].(needResched := true)]), i, WOut(p))
      else SetPc(s, i, WIpi(p, c)))
  {
    assert InRange(s.thr[i], |s.tasks|, |s.cpus|);
  }

  lemma KickInv(s: State, i: nat, p: nat, c: nat, a: Act)
    requires Inv(s) && i < |s.thr| && s.thr[i] == WKick(p, c)
    ensures WakeStep(s, i, a).Some? && Inv(WakeStep(s, i, a).value)
  {
    KickIs(s, i, p, c, a);
    if s.cpus[c].polling { KickPolling(s, i, p, c, s.cpus[c].(needResched := true)); }
    else { KickIpi(s, i, p, c); }
  }

  lemma RaiseIpi(s: State, c: nat)
    requires Inv(s) && c < |s.cpus|
    ensures Inv(s.(cpus := s.cpus[c := s.cpus[c].(ipi := true)]))
  {
    assert CpuOk(s, c);
    FlagsOnly(s, c, s.cpus[c].(ipi := true));
  }

  lemma SendIpi(s: State, i: nat, p: nat, c: nat)
    requires Inv(s) && i < |s.thr| && s.thr[i] == WIpi(p, c) && s.cpus[c].ipi
    ensures Inv(SetPc(s, i, WOut(p)))
  {
    assert ThreadOk(s, i);
    PcOnly(s, i, WOut(p));
  }

  lemma IpiInv(s: State, i: nat, p: nat, c: nat, a: Act)
    requires Inv(s) && i < |s.thr| && s.thr[i] == WIpi(p, c)
    ensures Inv(WakeStep(s, i, a).value)
  {
    assert ThreadOk(s, i);
    RaiseIpi(s, c);
    SendIpi(s.(cpus := s.cpus[c := s.cpus[c].(ipi := true)]), i, p, c);
  }

  /** The interrupt or idle flag is consumed by the thread that will look at the list. */
  lemma ConsumeFlag(s: State, i: nat, c: nat, y': Cpu, pc: Pc)
    requires Inv(s) && i < |s.thr| && s.thr[i].Idle? && c < |s.cpus|
    requires pc == DTest(c) || pc == DStart(c)
    requires y' == s.cpus[c].(ipi := y'.ipi, polling := y'.polling)
    requires y'.polling ==> s.cpus[c].polling
    ensures Inv(SetPc(s.(cpus := s.cpus[c := y']), i, pc))
  {
    LightStep(s, i, pc);
    DropFlag(SetPc(s, i, pc), i, c, y');
    assert SetPc(s, i, pc).(cpus := s.cpus[c := y']) == SetPc(s.(cpus := s.cpus[c := y']), i, pc);
  }

  lemma DropFlag(s: State, i: nat, c: nat, y': Cpu)
    requires Inv(s) && i < |s.thr| && c < |s.cpus| && Rescuer(s.thr[i], c)
    requires y' == s.cpus[c].(ipi := y'.ipi, polling := y'.polling)
    requires y'.polling ==> s.cpus[c].polling
    ensures Inv(s.(cpus := s.cpus[c := y']))
  {
    assert CpuOk(s, c);
    FlagsOnly(s, c, y');
  }

  lemma DrainFlagInv(s: State, i: nat, a: Act)
    requires Inv(s) && i < |s.thr| && DrainStep(s, i, a).Some? && s.thr[i].Idle? && !a.Drain?
    ensures Inv(DrainStep(s, i, a).value)
  {
    assert ThreadOk(s, i);
    if a.Ipi? { ConsumeFlag(s, i, a.c, s.cpus[a.c].(ipi := false), DTest(a.c)); }
    else { ConsumeFlag(s, i, a.c, s.cpus[a.c].(polling := false), DStart(a.c)); }
  }

  lemma DrainBeginInv(s: State, i: nat, c: nat)
    requires Inv(s) && i < |s.thr| && s.thr[i].Idle? && c < |s.cpus|
    ensures Inv(SetPc(s, i, DStart(c)))
  {
    LightStep(s, i, DStart(c));
  }

  lemma DrainNothingInv(s: State, i: nat, c: nat)
    requires Inv(s) && i < |s.thr| && (s.thr[i] == DTest(c) || s.thr[i] == DStart(c)) && s.cpus[c].wakeList == []
    ensures Inv(SetPc(s, i, Idle))
  {
    PcOnly(s, i, Idle);
  }

  lemma DrainGoInv(s: State, i: nat, c: nat)
    requires Inv(s) && i < |s.thr| && s.thr[i] == DTest(c)
    ensures Inv(SetPc(s, i, DStart(c)))
  {
    PcOnly(s, i, DStart(c));
  }

  lemma DrainTestInv(s: State, i: nat, a: Act)
    requires Inv(s) && i < |s.thr| && DrainStep(s, i, a).Some? && (s.thr[i].DTest? || s.thr[i].DStart?)
    ensures Inv(DrainStep(s, i, a).value)
  {
    var c := s.thr[i].c;
    if s.cpus[c].wakeList == [] { DrainNothingInv(s, i, c); }
    else if s.thr[i].DTest? { DrainGoInv(s, i, c); }
    else { StepTakeAll(s, i, c); }
  }

  lemma DrainLockInv(s: State, i: nat, c: nat, l: seq<nat>)
    requires Inv(s) && i < |s.thr| && s.thr[i] == DLock(c, l) && s.rq[c].Free?
    ensures Inv(SetPc(s, i, DLoop(c, l)))
  {
    assert ThreadOk(s, i);
    PcOnly(s, i, DLoop(c, l));
  }
  /** Thread i activates p, the head of the list it drains, and goes on at pc. */
  function DrainHead(s: State, i: nat, c: nat, p: nat, pc: Pc): State
    requires i < |s.thr| && c < |s.cpus| && p < |s.tasks|
  {
    var t, y := s.tasks[p], s.cpus[c];
    Change(s, i, p, t.(onRq := Queued, at := Started(i), remoteActivated := t.remoteActivated + 1), c,
      ActivatedCpu(y, t, p), pc)
  }

  lemma DrainHeadIs(s: State, i: nat, a: Act, c: nat, l: seq<nat>)
    requires Shape(s) && i < |s.thr| && s.thr[i] == DLoop(c, l) && l != []
    ensures DrainStep(s, i, a) == Some(DrainHead(s, i, c, l[0], DWake(l[0], c, l[1..])))
  {
    var t := s.tasks[l[0]];
    var t1 := t.(remoteActivated := t.remoteActivated + 1);
    var t2 := t1.(onRq := Queued, at := Started(i));
    assert s.tasks[l[0] := t1][l[0] := t2] == s.tasks[l[0] := t2];
  }

  lemma DrainHeadPc(s: State, i: nat, c: nat, l: seq<nat>, x': Task)
    requires Inv(s) && i < |s.thr| && s.thr[i] == DLoop(c, l) && l != []
    requires var t := s.tasks[l[0]];
      x' == t.(onRq := Queued, at := Started(i), remoteActivated := t.remoteActivated + 1)
    ensures PcOk(s.allowed, s.tasks[l[0] := x'], |s.cpus|, i, DWake(l[0], c, l[1..]))
    ensures s.tasks[l[0]].at == Draining(i) && s.tasks[l[0]].cpu == c
    ensures x'.remoteActivated == s.tasks[l[0]].remoteQueued
  {
    assert ThreadOk(s, i) && TaskOk(s, l[0]);
  }

  lemma DrainerKeepsOthers(s: State, i: nat, c: nat, l: seq<nat>)
    requires i < |s.thr| && s.thr[i] == DLoop(c, l) && l != []
    ensures OthersKept(s, i, l[0], DWake(l[0], c, l[1..])) && forall d :: !Rescuer(s.thr[i], d)
  {
    assert l == [l[0]] + l[1..];
  }

  lemma DrainerHasLocks(s: State, i: nat, c: nat, l: seq<nat>)
    requires i < |s.thr| && s.thr[i] == DLoop(c, l) && l != []
    ensures LocksFree(s, i, DWake(l[0], c, l[1..])) && StartedTask(DWake(l[0], c, l[1..]), l[0])
  {
  }

  lemma DrainHeadInv(s: State, i: nat, c: nat, l: seq<nat>, p: nat, pc: Pc)
    requires Inv(s) && i < |s.thr| && s.thr[i] == DLoop(c, l) && l != []
    requires p == l[0] && pc == DWake(l[0], c, l[1..])
    ensures Inv(DrainHead(s, i, c, p, pc))
  {
    var t := s.tasks[p];
    var x' := t.(onRq := Queued, at := Started(i), remoteActivated := t.remoteActivated + 1);
    DrainHeadPc(s, i, c, l, x');
    DrainerKeepsOthers(s, i, c, l);
    DrainerHasLocks(s, i, c, l);
    DrainActivates(s, i, c, p, pc, x');
  }

  lemma DrainActivates(s: State, i: nat, c: nat, p: nat, pc: Pc, x': Task)
    requires Inv(s) && i < |s.thr| && c < |s.cpus| && p < |s.tasks|
    requires s.tasks[p].at == Draining(i) && s.tasks[p].cpu == c
    requires x' == s.tasks[p].(onRq := Queued, at := Started(i), remoteActivated := s.tasks[p].remoteActivated + 1)
    requires x'.remoteActivated == s.tasks[p].remoteQueued
    requires LocksFree(s, i, pc) && PcOk(s.allowed, s.tasks[p := x'], |s.cpus|, i, pc) && StartedTask(pc, p)
    requires OthersKept(s, i, p, pc)
    requires forall d :: !Rescuer(s.thr[i], d)
    ensures Inv(DrainHead(s, i, c, p, pc))
  {
    Activated(s, i, p, c, x', ActivatedCpu(s.cpus[c], s.tasks[p], p), pc);
  }

  lemma DrainEndInv(s: State, i: nat, a: Act, c: nat)
    requires Inv(s) && i < |s.thr| && s.thr[i] == DLoop(c, [])
    ensures DrainStep(s, i, a) == Some(SetPc(s, i, Idle)) && Inv(SetPc(s, i, Idle))
  {
    PcOnly(s, i, Idle);
  }

  lemma DrainLoopInv(s: State, i: nat, a: Act, c: nat, l: seq<nat>)
    requires Inv(s) && i < |s.thr| && s.thr[i] == DLoop(c, l)
    ensures DrainStep(s, i, a).Some? && Inv(DrainStep(s, i, a).value)
  {
    if l == [] {
      DrainEndInv(s, i, a, c);
    } else {
      DrainHeadIs(s, i, a, c, l);
      DrainHeadInv(s, i, c, l, l[0], DWake(l[0], c, l[1..]));
    }
  }

  lemma DrainWakeInv(s: State, i: nat, a: Act)
    requires Inv(s) && i < |s.thr| && DrainStep(s, i, a).Some? && (s.thr[i].DWake?)
    ensures Inv(DrainStep(s, i, a).value)
  {
    assert ThreadOk(s, i);
    StepStarted(s, i, s.thr[i].p, s.thr[i].c, DLoop(s.thr[i].c, s.thr[i].l));
  }

  lemma DrainInv(s: State, i: nat, a: Act)
    requires Inv(s) && i < |s.thr| && DrainStep(s, i, a).Some?
    ensures Inv(DrainStep(s, i, a).value)
  {
    var pc := s.thr[i];
    if pc.Idle? && a.Drain? { DrainBeginInv(s, i, a.c); }
    else if pc.Idle? { DrainFlagInv(s, i, a); }
    else if pc.DTest? || pc.DStart? { DrainTestInv(s, i, a); }
    else if pc.DLock? { DrainLockInv(s, i, pc.c, pc.l); }
    else if pc.DLoop? { DrainLoopInv(s, i, a, pc.c, pc.l); }
    else { DrainWakeInv(s, i, a); }
  }

  // ---------------------------------------------------------------- CPU steps keep the invariant

  /** CPU c's scheduler changes task p, which belongs to it, and its own record. */
  function SChange(s: State, c: nat, p: nat, x': Task, y': Cpu): State
    requires c < |s.cpus| == |s.rq| && p < |s.tasks|
  {
    SetCpu(SetTask(s, p, x'), c, y')
  }

  ghost predicate SchedLocksFree(s: State, c: nat, y': Cpu)
    requires c < |s.cpus| == |s.rq|
  {
    && (SchedHoldsRq(y'.sched) && !SchedHoldsRq(s.cpus[c].sched) ==> s.rq[c].Free?)
    && (forall t :: 0 <= t < |s.pi| && SchedHoldsPi(y'.sched, t) && !SchedHoldsPi(s.cpus[c].sched, t) ==> s.pi[t].Free?)
  }

  lemma SChangeLocks(s: State, c: nat, p: nat, x': Task, y': Cpu)
    requires Inv(s) && c < |s.cpus| && p < |s.tasks| && SchedLocksFree(s, c, y')
    requires SchedInRange(y', |s.tasks|) && y'.wakeList == s.cpus[c].wakeList && x'.cpu < |s.cpus|
    ensures Shape(SChange(s, c, p, x', y')) && LocksOk(SChange(s, c, p, x', y'))
  {
    var s1 := SetTask(s, p, x');
    SchedLocks(s1, c, y');
  }

  lemma SChangeCpu(s: State, c: nat, p: nat, x': Task, y': Cpu, d: nat)
    requires Inv(s) && c < |s.cpus| && p < |s.tasks| && d < |s.cpus|
    requires s.tasks[p].cpu == x'.cpu == c && y'.wakeList == s.cpus[c].wakeList
    requires y'.queue == s.cpus[c].queue[p := if InQueue(x', c) then 1 else 0]
    requires SchedOk(s.allowed, s.tasks[p := x'], c, y')
    requires s.tasks[p].at.Listed? ==> x'.at == s.tasks[p].at
    ensures CpuOk(SChange(s, c, p, x', y'), d)
  {
    var s' := SChange(s, c, p, x', y');
    assert CpuOk(s, d);
    MoveQueue(s.tasks, p, x', d, s.cpus[d].queue);
    if d != c {
      assert s.cpus[d].queue == s.cpus[d].queue[p := 0];
    }
    assert s'.cpus[d].queue == s.cpus[d].queue[p := if InQueue(x', d) then 1 else 0];
  }

  lemma SChangeTask(s: State, c: nat, p: nat, x': Task, y': Cpu, t: nat)
    requires Inv(s) && c < |s.cpus| && p < |s.tasks| && t < |s.tasks| && t != p
    requires y'.wakeList == s.cpus[c].wakeList
    requires s.tasks[t].onCpu && s.tasks[t].cpu == c ==> y'.curr == t || y'.sched == SSwitch(t)
    ensures TaskOk(SChange(s, c, p, x', y'), t)
  {
    assert TaskOk(s, t);
  }

  lemma SChangeInv(s: State, c: nat, p: nat, x': Task, y': Cpu)
    requires Inv(s) && c < |s.cpus| && p < |s.tasks| && SchedLocksFree(s, c, y')
    requires s.tasks[p].cpu == x'.cpu == c && y'.wakeList == s.cpus[c].wakeList
    requires y'.queue == s.cpus[c].queue[p := if InQueue(x', c) then 1 else 0]
    requires SchedOk(s.allowed, s.tasks[p := x'], c, y')
    requires s.tasks[p].at.Listed? ==> x'.at == s.tasks[p].at
    requires TaskOk(SChange(s, c, p, x', y'), p)
    requires forall t :: 0 <= t < |s.tasks| && t != p && s.tasks[t].onCpu && s.tasks[t].cpu == c ==>
      y'.curr == t || y'.sched == SSwitch(t)
    requires forall j :: 0 <= j < |s.thr| ==> Harmless(p, s.tasks[p], x', j, s.thr[j])
    requires y'.ipi == s.cpus[c].ipi
    requires s.cpus[c].polling && s.cpus[c].needResched ==> y'.polling && y'.needResched
    requires y'.nrUnint - s.cpus[c].nrUnint == Contribution(x') - Contribution(s.tasks[p])
    ensures Inv(SChange(s, c, p, x', y'))
  {
    var s' := SChange(s, c, p, x', y');
    SChangeLocks(s, c, p, x', y');
    forall j | 0 <= j < |s.thr| ensures ThreadOk(s', j) {
      assert ThreadOk(s, j);
      HarmlessPc(s.allowed, s.tasks, |s.cpus|, p, x', j, s.thr[j]);
    }
    forall t | 0 <= t < |s.tasks| ensures TaskOk(s', t) { if t != p { SChangeTask(s, c, p, x', y', t); } }
    forall d | 0 <= d < |s.cpus| ensures CpuOk(s', d) && Rescued(s', d) {
      SChangeCpu(s, c, p, x', y', d);
      assert Rescued(s, d);
    }
    SumNrUpdate(s.cpus, c, y');
    SumLoadUpdate(s.tasks, p, x');
  }

  /** A task of CPU c that is on the CPU is its current task or the one being switched out. */
  lemma OnCpuHere(s: State, c: nat)
    requires Inv(s) && c < |s.cpus|
    ensures forall t :: 0 <= t < |s.tasks| && s.tasks[t].onCpu && s.tasks[t].cpu == c ==>
      s.cpus[c].curr == t || s.cpus[c].sched == SSwitch(t)
  {
    forall t | 0 <= t < |s.tasks| && s.tasks[t].onCpu && s.tasks[t].cpu == c
      ensures s.cpus[c].curr == t || s.cpus[c].sched == SSwitch(t)
    {
      assert TaskOk(s, t);
    }
  }

  /** Steps that leave the current task's placement alone. */
  lemma SCurr(s: State, c: nat, x': Task, y': Cpu)
    requires Inv(s) && c < |s.cpus| && SchedLocksFree(s, c, y')
    requires var p := s.cpus[c].curr; var x := s.tasks[p];
      x' == x.(state := x'.state, frozen := x'.frozen) && (x' == x || (x.at == OnQueue && !x'.state.Waking?))
    requires y' == s.cpus[c].(sched := y'.sched, polling := y'.polling, needResched := y'.needResched)
    requires SchedOk(s.allowed, s.tasks[s.cpus[c].curr := x'], c, y') && !s.cpus[c].sched.SSwitch?
    requires s.cpus[c].polling && s.cpus[c].needResched ==> y'.polling && y'.needResched
    ensures Inv(SChange(s, c, s.cpus[c].curr, x', y'))
  {
    var p := s.cpus[c].curr;
    assert CpuOk(s, c) && TaskOk(s, p);
    OnCpuHere(s, c);
    assert y'.queue == s.cpus[c].queue[p := if InQueue(x', c) then 1 else 0];
    SChangeInv(s, c, p, x', y');
  }

  lemma SetStateInv(s: State, c: nat, a: SchedAct)
    requires Inv(s) && c < |s.cpus| && s.cpus[c].sched.SOut? && a.SetState? && !a.st.Waking?
    ensures Inv(SchedStep(s, c, a).value)
  {
    assert CpuOk(s, c);
    var p := s.cpus[c].curr;
    SCurr(s, c, s.tasks[p].(state := a.st, frozen := a.frozen), s.cpus[c]);
  }

  lemma SignalInv(s: State, c: nat)
    requires Inv(s) && c < |s.cpus| && s.cpus[c].sched.SLocked?
    ensures Inv(SChange(s, c, s.cpus[c].curr, s.tasks[s.cpus[c].curr].(state := Running), s.cpus[c].(sched := SPick)))
  {
    assert CpuOk(s, c);
    SCurr(s, c, s.tasks[s.cpus[c].curr].(state := Running), s.cpus[c].(sched := SPick));
  }

  /** Steps of CPU c that only move its scheduler or its idle flags. */
  lemma SMove(s: State, c: nat, y': Cpu)
    requires Inv(s) && c < |s.cpus| && SchedLocksFree(s, c, y')
    requires y' == s.cpus[c].(sched := y'.sched, polling := y'.polling, needResched := y'.needResched)
    requires SchedOk(s.allowed, s.tasks, c, y') && !s.cpus[c].sched.SSwitch?
    requires s.cpus[c].polling && s.cpus[c].needResched ==> y'.polling && y'.needResched
    ensures Inv(SetCpu(s, c, y'))
  {
    var p := s.cpus[c].curr;
    assert s.tasks[p := s.tasks[p]] == s.tasks;
    SCurr(s, c, s.tasks[p], y');
  }

  lemma ReschedInv(s: State, c: nat)
    requires Inv(s) && c < |s.cpus|
    ensures Inv(SetCpu(s, c, s.cpus[c].(needResched := true)))
  {
    assert CpuOk(s, c);
    var y' := s.cpus[c].(needResched := true);
    FlagsOnly(s, c, y') by { assert Rescued(s, c); }
    var s1 := s.(cpus := s.cpus[c := y']);
    var s2 := SetCpu(s, c, y');
    assert s2.rq == s.rq;
    assert s2.pi == s.pi;
  }

  function Deactivated(s: State, c: nat): State
    requires c < |s.cpus| == |s.rq| && s.cpus[c].curr < |s.tasks|
  {
    var x := s.cpus[c];
    var t := s.tasks[x.curr];
    SChange(s, c, x.curr, t.(onRq := Off, at := Asleep),
      AddLoad(x, Load(t)).(queue := x.queue - multiset{x.curr}, sched := SDeact))
  }

  lemma DeactivatedParts(s: State, c: nat, p: nat, x: Cpu, t': Task, y': Cpu)
    requires Inv(s) && c < |s.cpus| && x == s.cpus[c] && x.sched.SLocked? && p == x.curr && !s.tasks[p].state.Running?
    requires t' == s.tasks[p].(onRq := Off, at := Asleep)
    requires y' == AddLoad(x, Load(s.tasks[p])).(queue := x.queue - multiset{p}, sched := SDeact)
    ensures s.tasks[p].at == OnQueue && s.tasks[p].cpu == c && s.tasks[p].onRq.Queued? && !s.tasks[p].state.Waking?
    ensures y'.queue == x.queue[p := 0] && SchedOk(s.allowed, s.tasks[p := t'], c, y') && SchedLocksFree(s, c, y')
    ensures TaskOk(SChange(s, c, p, t', y'), p)
  {
    assert CpuOk(s, c) && TaskOk(s, p);
  }

  lemma DeactivateInv(s: State, c: nat)
    requires Inv(s) && c < |s.cpus| && s.cpus[c].sched.SLocked? && !s.tasks[s.cpus[c].curr].state.Running?
    ensures Inv(Deactivated(s, c))
  {
    var x := s.cpus[c];
    var p := x.curr;
    var t' := s.tasks[p].(onRq := Off, at := Asleep);
    var y' := AddLoad(x, Load(s.tasks[p])).(queue := x.queue - multiset{p}, sched := SDeact);
    DeactivatedParts(s, c, p, x, t', y');
    OnCpuHere(s, c);
    SChangeInv(s, c, p, t', y');
  }

  /** A queued task of the CPU whose rq lock its scheduler holds is settled. */
  lemma SchedSettled(s: State, c: nat, t: nat)
    requires Inv(s) && c < |s.cpus| && SchedHoldsRq(s.cpus[c].sched) && t < |s.tasks|
    requires s.tasks[t].cpu == c && s.tasks[t].onRq.Queued?
    ensures s.tasks[t].at == OnQueue
  {
    assert TaskOk(s, t);
    if s.tasks[t].at.Started? {
      StartedHolder(s, t);
      SchedExcludes(s, c, s.tasks[t].at.id);
    }
  }

  lemma SchedExcludes(s: State, c: nat, j: nat)
    requires Inv(s) && c < |s.cpus| && SchedHoldsRq(s.cpus[c].sched) && j < |s.thr|
    ensures !HoldsRq(s.thr[j], c)
  {
    assert SchedHoldsRq(s.cpus[c].sched) <==> s.rq[c] == Scheduler(c);
    assert HoldsRq(s.thr[j], c) <==> s.rq[c] == Thread(j);
  }

  lemma SchedExcludesPi(s: State, c: nat, w: nat, j: nat)
    requires Inv(s) && c < |s.cpus| && w < |s.tasks| && SchedHoldsPi(s.cpus[c].sched, w) && j < |s.thr|
    ensures !HoldsPi(s.thr[j], w)
  {
    assert SchedHoldsPi(s.cpus[c].sched, w) <==> s.pi[w] == Scheduler(c);
    assert HoldsPi(s.thr[j], w) <==> s.pi[w] == Thread(j);
  }

  lemma LocalRunningInv(s: State, c: nat, w: nat)
    requires Inv(s) && c < |s.cpus| && s.cpus[c].sched == SLocal(w) && s.tasks[w].onRq.Queued?
    ensures Inv(SChange(s, c, w, s.tasks[w].(state := Running), s.cpus[c].(sched := SPick)))
  {
    assert CpuOk(s, c) && TaskOk(s, w);
    SchedSettled(s, c, w);
    OnCpuHere(s, c);
    var y' := s.cpus[c].(sched := SPick);
    assert y'.queue == s.cpus[c].queue[w := 1];
    SChangeInv(s, c, w, s.tasks[w].(state := Running), y');
  }

  lemma LocalWakeInv(s: State, c: nat, w: nat, y': Cpu)
    requires Inv(s) && c < |s.cpus| && s.cpus[c].sched == SLocal(w) && !s.tasks[w].onRq.Queued?
    requires s.tasks[w].state.Interruptible? || s.tasks[w].state.Uninterruptible?
    requires y' == AddLoad(s.cpus[c], -Load(s.tasks[w])).(queue := s.cpus[c].queue + multiset{w}, sched := SPick)
    ensures Inv(SChange(s, c, w, s.tasks[w].(state := Running, onRq := Queued, at := OnQueue), y'))
  {
    assert CpuOk(s, c) && TaskOk(s, w);
    var x' := s.tasks[w].(state := Running, onRq := Queued, at := OnQueue);
    OnCpuHere(s, c);
    assert y'.queue == s.cpus[c].queue[w := 1];
    forall j | 0 <= j < |s.thr| ensures Harmless(w, s.tasks[w], x', j, s.thr[j]) { SchedExcludesPi(s, c, w, j); }
    SChangeInv(s, c, w, x', y');
  }

  lemma SwitchToInv(s: State, c: nat, next: nat, y': Cpu)
    requires Inv(s) && c < |s.cpus| && s.cpus[c].sched.SPick? && next < |s.tasks| && s.cpus[c].queue[next] > 0
    requires next != s.cpus[c].curr
    requires y' == s.cpus[c].(needResched := y'.needResched, curr := next, sched := SSwitch(s.cpus[c].curr))
    ensures Inv(SChange(s, c, next, s.tasks[next].(onCpu := true), y'))
  {
    assert CpuOk(s, c) && TaskOk(s, next);
    SchedSettled(s, c, next);
    OnCpuHere(s, c);
    assert y'.queue == s.cpus[c].queue[next := 1];
    SChangeInv(s, c, next, s.tasks[next].(onCpu := true), y');
  }

  lemma KeepRunningInv(s: State, c: nat, y': Cpu)
    requires Inv(s) && c < |s.cpus| && s.cpus[c].sched.SPick? && s.cpus[c].queue[s.cpus[c].curr] > 0
    requires y' == s.cpus[c].(needResched := y'.needResched, sched := SOut)
    ensures Inv(SetCpu(s, c, y'))
  {
    assert CpuOk(s, c);
    SchedSettled(s, c, s.cpus[c].curr);
    SMove(s, c, y');
  }

  lemma FinishSwitchInv(s: State, c: nat, prev: nat)
    requires Inv(s) && c < |s.cpus| && s.cpus[c].sched == SSwitch(prev)
    ensures Inv(SChange(s, c, prev, s.tasks[prev].(onCpu := false), s.cpus[c].(sched := SOut)))
  {
    assert CpuOk(s, c) && TaskOk(s, prev);
    var y' := s.cpus[c].(sched := SOut);
    OnCpuHere(s, c);
    assert y'.queue == s.cpus[c].queue[prev := if InQueue(s.tasks[prev], c) then 1 else 0];
    SChangeInv(s, c, prev, s.tasks[prev].(onCpu := false), y');
  }

  lemma SOutInv(s: State, c: nat, a: SchedAct)
    requires Inv(s) && c < |s.cpus| && s.cpus[c].sched.SOut? && SchedStep(s, c, a).Some? && !a.Resched?
    ensures Inv(SchedStep(s, c, a).value)
  {
    assert CpuOk(s, c);
    var x := s.cpus[c];
    match a
    case SetState(_, _) => SetStateInv(s, c, a);
    case Lock => SMove(s, c, x.(sched := SLocked));
    case Poll => SMove(s, c, x.(polling := true));
    case Unpoll => SMove(s, c, x.(polling := false));
  }

  lemma SLockedInv(s: State, c: nat, a: SchedAct)
    requires Inv(s) && c < |s.cpus| && s.cpus[c].sched.SLocked? && SchedStep(s, c, a).Some? && !a.Resched?
    ensures Inv(SchedStep(s, c, a).value)
  {
    assert CpuOk(s, c);
    match a
    case Preempted => SMove(s, c, s.cpus[c].(sched := SPick));
    case Signal => SignalInv(s, c);
    case Deactivate => DeactivateInv(s, c);
  }

  lemma SLocalStartInv(s: State, c: nat, a: SchedAct)
    requires Inv(s) && c < |s.cpus| && SchedStep(s, c, a).Some? && !a.Resched?
    requires s.cpus[c].sched.SDeact? || s.cpus[c].sched.SLocalPi? || s.cpus[c].sched.SLocalRq?
    ensures Inv(SchedStep(s, c, a).value)
  {
    assert CpuOk(s, c);
    SMove(s, c, SchedStep(s, c, a).value.cpus[c]);
  }

  lemma LocalAwakeInv(s: State, c: nat, w: nat)
    requires Inv(s) && c < |s.cpus| && s.cpus[c].sched == SLocal(w)
    ensures Inv(SetCpu(s, c, s.cpus[c].(sched := SPick)))
  {
    assert CpuOk(s, c);
    SMove(s, c, s.cpus[c].(sched := SPick));
  }

  lemma SLocalInv(s: State, c: nat, a: SchedAct)
    requires Inv(s) && c < |s.cpus| && s.cpus[c].sched.SLocal? && SchedStep(s, c, a).Some? && !a.Resched?
    ensures Inv(SchedStep(s, c, a).value)
  {
    var w := s.cpus[c].sched.w;
    if !s.tasks[w].state.Interruptible? && !s.tasks[w].state.Uninterruptible? {
      LocalAwakeInv(s, c, w);
    } else if s.tasks[w].onRq.Queued? {
      LocalRunningInv(s, c, w);
    } else {
      LocalWakeInv(s, c, w,
        AddLoad(s.cpus[c], -Load(s.tasks[w])).(queue := s.cpus[c].queue + multiset{w}, sched := SPick));
    }
  }

  lemma SPickInv(s: State, c: nat, a: SchedAct)
    requires Inv(s) && c < |s.cpus| && s.cpus[c].sched.SPick? && SchedStep(s, c, a).Some? && !a.Resched?
    ensures Inv(SchedStep(s, c, a).value)
  {
    var x := s.cpus[c];
    var x1 := x.(needResched := if x.curr == x.idle then false else x.needResched);
    if a.next == x.curr { KeepRunningInv(s, c, x1.(sched := SOut)); }
    else { SwitchToInv(s, c, a.next, x1.(curr := a.next, sched := SSwitch(x.curr))); }
  }

  lemma SchedInv(s: State, c: nat, a: SchedAct)
    requires Inv(s) && c < |s.cpus| && SchedStep(s, c, a).Some?
    ensures Inv(SchedStep(s, c, a).value)
  {
    if a.Resched? { ReschedInv(s, c); }
    else {
      match s.cpus[c].sched
      case SOut => SOutInv(s, c, a);
      case SLocked => SLockedInv(s, c, a);
      case SLocal(_) => SLocalInv(s, c, a);
      case SPick => SPickInv(s, c, a);
      case SSwitch(prev) => FinishSwitchInv(s, c, prev);
      case _ => SLocalStartInv(s, c, a);
    }
  }

  lemma StepInv(s: State, step: Step)
    requires Inv(s) && Exec(s, step).Some?
    ensures Inv(Exec(s, step).value)
  {
    match step
    case ByThread(i, a) =>
      if LockStep(s, i, a).Some? { LockInv(s, i, a); }
      else if SwapStep(s, i, a).Some? { SwapStepInv(s, i, a); }
      else if WakeStep(s, i, a).Some? { WakeInv(s, i, a); }
      else { DrainInv(s, i, a); }
    case ByCpu(c, b) => SchedInv(s, c, b);
  }

  // ---------------------------------------------------------------- runs

  /** Nothing is in flight: tasks run, wait in their queue or sleep, and the counters agree. */
  ghost predicate Init(s: State) {
    && Shape(s)
    && (forall i :: 0 <= i < |s.thr| ==> s.thr[i].Idle?)
    && (forall c :: 0 <= c < |s.rq| ==> s.rq[c].Free?) && (forall t :: 0 <= t < |s.pi| ==> s.pi[t].Free?)
    && (forall t :: 0 <= t < |s.tasks| ==>
        && (s.tasks[t].at.OnQueue? || s.tasks[t].at.Asleep?) && TaskOk(s, t) && s.tasks[t].remoteQueued == 0)
    && (forall c :: 0 <= c < |s.cpus| ==>
        && s.cpus[c].sched.SOut? && s.cpus[c].wakeList == [] && !s.cpus[c].ipi && CpuOk(s, c))
    && SumNr(s.cpus) == SumLoad(s.tasks)
  }

  ghost predicate Run(r: seq<State>) {
    IsRun(Init, Next, r)
  }

  /** Two CPUs with an idle task each, an ordinary task queued on CPU 0, and n idle threads. */
  function Booted(n: nat): State {
    var idle0 := Task(Running, false, Queued, true, 0, false, 0, 0, OnQueue);
    var idle1 := idle0.(cpu := 1);
    State([{0}, {1}, {0, 1}], [idle0, idle1, idle0.(onCpu := false)],
          [Cpu(multiset{0, 2}, 0, 0, SOut, 0, [], false, false, false),
           Cpu(multiset{1}, 1, 1, SOut, 0, [], false, false, false)],
          [Free, Free, Free], [Free, Free], seq(n, _ => Idle))
  }

  /** There is an initial state for any number of threads, and so there are runs. */
  lemma InitExists(n: nat)
    ensures Init(Booted(n)) && Run([Booted(n)])
  {
    var s := Booted(n);
    BootedTasksOk(n);
    BootedCpusOk(n);
    BootedSums(s.cpus, s.tasks);
  }

  lemma BootedTasksOk(n: nat)
    ensures forall t :: 0 <= t < 3 ==> TaskOk(Booted(n), t)
  {
  }

  lemma BootedCpusOk(n: nat)
    ensures forall c :: 0 <= c < 2 ==> CpuOk(Booted(n), c)
  {
  }

  lemma BootedSums(cpus: seq<Cpu>, ts: seq<Task>)
    requires |cpus| == 2 && cpus[0].nrUnint == cpus[1].nrUnint == 0
    requires |ts| == 3 && forall t :: 0 <= t < 3 ==> ts[t].onRq.Queued?
    ensures SumNr(cpus) == SumLoad(ts)
  {
    assert cpus[..1] == [cpus[0]] && [cpus[0]][..0] == [];
    assert SumNr([cpus[0]]) == 0;
    assert ts[..2] == [ts[0], ts[1]] && [ts[0], ts[1]][..1] == [ts[0]] && [ts[0]][..0] == [];
    assert SumLoad([ts[0]]) == 0;
    assert SumLoad([ts[0], ts[1]]) == 0;
  }

  lemma InitInv(s: State)
    requires Init(s)
    ensures Inv(s)
  {
    InitLocks(s);
    forall c | 0 <= c < |s.cpus| ensures CpuOk(s, c) && Rescued(s, c) {}
    forall i | 0 <= i < |s.thr| ensures ThreadOk(s, i) {}
  }

  lemma InitLocks(s: State)
    requires Init(s)
    ensures LocksOk(s)
  {
  }

  lemma NextInv(s: State, s': State)
    requires Inv(s) && Next(s, s')
    ensures Inv(s')
  {
    var step :| Exec(s, step) == Some(s');
    StepInv(s, step);
  }

  /** Every state of every run satisfies the invariant. */
  lemma ReachableInv(r: seq<State>, k: nat)
    requires Run(r) && k < |r|
    ensures Inv(r[k])
  {
    forall s | Init(s) ensures Inv(s) { InitInv(s); }
    forall s, s' | Inv(s) && Next(s, s') ensures Inv(s') { NextInv(s, s'); }
    RunInvariant(Init, Next, Inv, r, k);
  }

  // ---------------------------------------------------------------- lock and recheck

  /** task_rq_lock (or __task_rq_lock) of p has returned rq c to thread i, which has not unlocked. */
  predicate HasTaskRq(s: State, i: nat, p: nat, c: nat) {
    i < |s.thr| && (s.thr[i] == THold(p, c) || s.thr[i] == WRemote(p, c))
  }

  /** The lock returned is that of the rq p really belongs to, and p is not mid-migration. */
  lemma RecheckIsSound(r: seq<State>, k: nat, i: nat, p: nat, c: nat)
    requires Run(r) && k < |r| && HasTaskRq(r[k], i, p, c)
    ensures p < |r[k].tasks| == |r[k].pi| && c < |r[k].rq|
    ensures r[k].rq[c] == Thread(i) && r[k].pi[p] == Thread(i)
    ensures r[k].tasks[p].cpu == c && !r[k].tasks[p].onRq.Migrating?
  {
    ReachableInv(r, k);
    var s := r[k];
    assert ThreadOk(s, i);
    assert HoldsRq(s.thr[i], c) <==> s.rq[c] == Thread(i);
    assert HoldsPi(s.thr[i], p) <==> s.pi[p] == Thread(i);
  }

  /** on_rq of p changes only under the lock of the rq p is on at that moment. */
  ghost predicate TouchesUnderLock(s: State, s': State, p: nat, holds: bool)
    requires p < |s.tasks|
  {
    p < |s'.tasks| && (s'.tasks[p].onRq == s.tasks[p].onRq || holds)
  }

  lemma LockStepTouches(s: State, j: nat, a: Act, p: nat)
    requires Inv(s) && j < |s.thr| && p < |s.tasks| && LockStep(s, j, a).Some?
    ensures TouchesUnderLock(s, LockStep(s, j, a).value, p, HoldsRq(s.thr[j], s.tasks[p].cpu))
  {
    assert ThreadOk(s, j);
  }

  lemma SwapStepTouches(s: State, j: nat, a: Act, p: nat)
    requires Inv(s) && j < |s.thr| && p < |s.tasks| && SwapStep(s, j, a).Some?
    ensures TouchesUnderLock(s, SwapStep(s, j, a).value, p, HoldsRq(s.thr[j], s.tasks[p].cpu))
  {
  }

  lemma WakeStepTouches(s: State, j: nat, a: Act, p: nat)
    requires Inv(s) && j < |s.thr| && p < |s.tasks| && WakeStep(s, j, a).Some?
    ensures TouchesUnderLock(s, WakeStep(s, j, a).value, p, HoldsRq(s.thr[j], s.tasks[p].cpu))
  {
    assert ThreadOk(s, j);
  }

  lemma DrainStepTouches(s: State, j: nat, a: Act, p: nat)
    requires Inv(s) && j < |s.thr| && p < |s.tasks| && DrainStep(s, j, a).Some?
    ensures TouchesUnderLock(s, DrainStep(s, j, a).value, p, HoldsRq(s.thr[j], s.tasks[p].cpu))
  {
    assert ThreadOk(s, j);
  }

  lemma SchedStepTouches(s: State, c: nat, a: SchedAct, p: nat)
    requires Inv(s) && c < |s.cpus| && p < |s.tasks| && SchedStep(s, c, a).Some?
    ensures TouchesUnderLock(s, SchedStep(s, c, a).value, p, s.tasks[p].cpu == c && SchedHoldsRq(s.cpus[c].sched))
  {
    assert CpuOk(s, c);
  }

  lemma CpuLeavesPut(s: State, i: nat, p: nat, c: nat, d: nat, b: SchedAct)
    requires Inv(s) && HasTaskRq(s, i, p, c) && p < |s.tasks| && d < |s.cpus| && SchedStep(s, d, b).Some?
    ensures SchedStep(s, d, b).value.tasks[p].onRq == s.tasks[p].onRq
  {
    assert ThreadOk(s, i) && HoldsRq(s.thr[i], c);
    SchedStepTouches(s, d, b, p);
    if d == c && SchedHoldsRq(s.cpus[c].sched) { SchedExcludes(s, c, i); }
  }

  lemma ThreadStepTouches(s: State, j: nat, a: Act, p: nat)
    requires Inv(s) && j < |s.thr| && p < |s.tasks| && Exec(s, ByThread(j, a)).Some?
    ensures TouchesUnderLock(s, Exec(s, ByThread(j, a)).value, p, HoldsRq(s.thr[j], s.tasks[p].cpu))
  {
    if LockStep(s, j, a).Some? { LockStepTouches(s, j, a, p); }
    else if SwapStep(s, j, a).Some? { SwapStepTouches(s, j, a, p); }
    else if WakeStep(s, j, a).Some? { WakeStepTouches(s, j, a, p); }
    else { DrainStepTouches(s, j, a, p); }
  }

  lemma ThreadLeavesPut(s: State, i: nat, p: nat, c: nat, j: nat, a: Act)
    requires Inv(s) && HasTaskRq(s, i, p, c) && p < |s.tasks| && j < |s.thr| && j != i
    requires Exec(s, ByThread(j, a)).Some?
    ensures p < |Exec(s, ByThread(j, a)).value.tasks|
    ensures Exec(s, ByThread(j, a)).value.tasks[p].onRq == s.tasks[p].onRq
  {
    assert ThreadOk(s, i) && HoldsRq(s.thr[i], c);
    ThreadStepTouches(s, j, a, p);
    if HoldsRq(s.thr[j], c) { SoleRq(s, i, j, c); }
  }

  lemma StaysPutOneStep(s: State, s': State, i: nat, p: nat, c: nat)
    requires Inv(s) && Next(s, s') && HasTaskRq(s, i, p, c) && HasTaskRq(s', i, p, c)
    requires p < |s.tasks|
    ensures SameSizes(s, s') && s'.tasks[p].onRq == s.tasks[p].onRq
  {
    var step :| Exec(s, step) == Some(s');
    match step
    case ByCpu(d, b) => CpuLeavesPut(s, i, p, c, d, b);
    case ByThread(j, a) =>
      if j == i { HolderMoves(s, i, p, c, a); } else { ThreadLeavesPut(s, i, p, c, j, a); }
  }

  /** Every step of the holder itself unlocks, moves p on, or finishes the remote wakeup. */
  lemma HolderMoves(s: State, i: nat, p: nat, c: nat, a: Act)
    requires Shape(s) && HasTaskRq(s, i, p, c) && Exec(s, ByThread(i, a)).Some?
    ensures !HasTaskRq(Exec(s, ByThread(i, a)).value, i, p, c)
  {
  }

  /** A step through which thread i keeps p's rq locked leaves p's on_rq alone. */
  ghost predicate KeepsHeld(s: State, s': State, i: nat, p: nat, c: nat) {
    HasTaskRq(s, i, p, c) && HasTaskRq(s', i, p, c) && p < |s.tasks| ==>
      SameSizes(s, s') && s'.tasks[p].onRq == s.tasks[p].onRq
  }

  lemma RunKeepsHeld(r: seq<State>, i: nat, p: nat, c: nat)
    requires Run(r)
    ensures forall k :: 0 < k < |r| ==> KeepsHeld(r[k - 1], r[k], i, p, c)
  {
    var rel := (s, s') => KeepsHeld(s, s', i, p, c);
    forall s | Init(s) ensures Inv(s) { InitInv(s); }
    forall s, s' | Inv(s) && Next(s, s') ensures Inv(s') && rel(s, s') {
      NextInv(s, s');
      if HasTaskRq(s, i, p, c) && HasTaskRq(s', i, p, c) && p < |s.tasks| { StaysPutOneStep(s, s', i, p, c); }
    }
    RunSteps(Init, Next, Inv, rel, r);
    forall k | 0 < k < |r| ensures KeepsHeld(r[k - 1], r[k], i, p, c) { assert rel(r[k - 1], r[k]); }
  }

  lemma QueuesAgree(s: State, s': State, p: nat)
    requires Inv(s) && Inv(s') && p < |s.tasks| && p < |s'.tasks| && |s.cpus| == |s'.cpus|
    requires s'.tasks[p].cpu == s.tasks[p].cpu && s'.tasks[p].onRq == s.tasks[p].onRq
    ensures forall d :: 0 <= d < |s'.cpus| ==> s'.cpus[d].queue[p] == s.cpus[d].queue[p]
  {
    forall d | 0 <= d < |s'.cpus| ensures s'.cpus[d].queue[p] == s.cpus[d].queue[p] {
      assert CpuOk(s', d) && CpuOk(s, d);
    }
  }

  lemma {:induction false} OnRqStaysPut(r: seq<State>, k: nat, m: nat, i: nat, p: nat, c: nat)
    requires k <= m < |r| && p < |r[k].tasks|
    requires forall n :: k <= n <= m ==> HasTaskRq(r[n], i, p, c)
    requires forall n :: 0 < n < |r| ==> KeepsHeld(r[n - 1], r[n], i, p, c)
    ensures p < |r[m].tasks| && |r[m].cpus| == |r[k].cpus| && r[m].tasks[p].onRq == r[k].tasks[p].onRq
  {
    if k == m {
    } else {
      OnRqStaysPut(r, k, m - 1, i, p, c);
      assert KeepsHeld(r[m - 1], r[m], i, p, c);
    }
  }

  /** From the return of the lock function to the unlock, p's CPU and queue membership are fixed. */
  lemma LockedTaskStaysPut(r: seq<State>, k: nat, m: nat, i: nat, p: nat, c: nat)
    requires Run(r) && k <= m < |r|
    requires forall n :: k <= n <= m ==> HasTaskRq(r[n], i, p, c)
    ensures p < |r[k].tasks| && p < |r[m].tasks| && |r[k].cpus| == |r[m].cpus|
    ensures r[m].tasks[p].cpu == r[k].tasks[p].cpu == c && r[m].tasks[p].onRq == r[k].tasks[p].onRq
    ensures forall d :: 0 <= d < |r[m].cpus| ==> r[m].cpus[d].queue[p] == r[k].cpus[d].queue[p]
  {
    RecheckIsSound(r, k, i, p, c);
    RecheckIsSound(r, m, i, p, c);
    RunKeepsHeld(r, i, p, c);
    OnRqStaysPut(r, k, m, i, p, c);
    ReachableInv(r, k);
    ReachableInv(r, m);
    QueuesAgree(r[k], r[m], p);
  }

  // ---------------------------------------------------------------- single placement

  ghost predicate IsQueued(s: State, t: nat) {
    exists c :: 0 <= c < |s.cpus| && s.cpus[c].queue[t] > 0
  }

  ghost predicate IsMoving(s: State, t: nat) {
    exists i :: 0 <= i < |s.thr| && MovingTask(s.thr[i], t)
  }

  ghost predicate IsTaken(s: State, t: nat) {
    exists i :: 0 <= i < |s.thr| && TakenTask(s.thr[i], t)
  }

  ghost predicate IsListed(s: State, t: nat) {
    || (exists c :: 0 <= c < |s.cpus| && t in s.cpus[c].wakeList)
    || (exists i :: 0 <= i < |s.thr| && DrainingTask(s.thr[i], t))
  }

  predicate IsAsleep(x: Task) {
    x.onRq.Off? && (x.state.Interruptible? || x.state.Uninterruptible?)
  }

  /** A thread that moves, takes or drains t is the one `at` names. */
  lemma OwnerIs(s: State, t: nat, i: nat)
    requires Inv(s) && i < |s.thr|
    ensures MovingTask(s.thr[i], t) ==> t < |s.tasks| && s.tasks[t].at == Moving(i)
    ensures TakenTask(s.thr[i], t) ==> t < |s.tasks| && s.tasks[t].at == Taken(i)
    ensures DrainingTask(s.thr[i], t) ==> t < |s.tasks| && s.tasks[t].at == Draining(i)
  {
    assert ThreadOk(s, i);
  }

  /** Each form of placement, read off queues, lists and program points, is what `at` records. */
  lemma QueuedMeans(s: State, t: nat)
    requires Inv(s) && t < |s.tasks|
    ensures IsQueued(s, t) <==> s.tasks[t].at.OnQueue? || s.tasks[t].at.Started?
    ensures IsAsleep(s.tasks[t]) <==> s.tasks[t].at.Asleep?
  {
    assert TaskOk(s, t) && CpuOk(s, s.tasks[t].cpu);
    if c :| 0 <= c < |s.cpus| && s.cpus[c].queue[t] > 0 { assert CpuOk(s, c); }
  }

  lemma OwnedMeans(s: State, t: nat)
    requires Inv(s) && t < |s.tasks|
    ensures IsMoving(s, t) <==> s.tasks[t].at.Moving?
    ensures IsTaken(s, t) <==> s.tasks[t].at.Taken?
  {
    assert TaskOk(s, t);
    if i :| 0 <= i < |s.thr| && MovingTask(s.thr[i], t) { OwnerIs(s, t, i); }
    if i :| 0 <= i < |s.thr| && TakenTask(s.thr[i], t) { OwnerIs(s, t, i); }
  }

  lemma ListedMeans(s: State, t: nat)
    requires Inv(s) && t < |s.tasks|
    ensures IsListed(s, t) <==> s.tasks[t].at.Listed? || s.tasks[t].at.Draining?
  {
    assert TaskOk(s, t);
    if c :| 0 <= c < |s.cpus| && t in s.cpus[c].wakeList { assert CpuOk(s, c); }
    if i :| 0 <= i < |s.thr| && DrainingTask(s.thr[i], t) { OwnerIs(s, t, i); }
  }

  function Count5(a: bool, b: bool, c: bool, d: bool, e: bool): nat {
    (if a then 1 else 0) + (if b then 1 else 0) + (if c then 1 else 0) + (if d then 1 else 0) + (if e then 1 else 0)
  }

  /** In every reachable state each task is in exactly one place. */
  lemma SinglePlacement(r: seq<State>, k: nat, t: nat)
    requires Run(r) && k < |r| && t < |r[k].tasks|
    ensures var s := r[k];
      Count5(IsQueued(s, t), IsMoving(s, t), IsTaken(s, t), IsListed(s, t), IsAsleep(s.tasks[t])) == 1
  {
    ReachableInv(r, k);
    QueuedMeans(r[k], t);
    OwnedMeans(r[k], t);
    ListedMeans(r[k], t);
  }

  /** A queued task is counted once, in the queue of its own CPU: no run enqueues it twice. */
  lemma QueuedOnce(r: seq<State>, k: nat, c: nat, t: nat)
    requires Run(r) && k < |r| && c < |r[k].cpus| && t < |r[k].tasks|
    ensures r[k].cpus[c].queue[t] <= 1
    ensures r[k].cpus[c].queue[t] == 1 <==> r[k].tasks[t].onRq.Queued? && r[k].tasks[t].cpu == c
  {
    ReachableInv(r, k);
    assert CpuOk(r[k], c);
  }

  /** Whoever moves, wakes or drains a task is the only one to do so, and it is listed once. */
  lemma SoleOwner(r: seq<State>, k: nat, t: nat, i: nat, j: nat)
    requires Run(r) && k < |r| && i < |r[k].thr| && j < |r[k].thr|
    requires MovingTask(r[k].thr[i], t) || TakenTask(r[k].thr[i], t) || DrainingTask(r[k].thr[i], t)
    requires MovingTask(r[k].thr[j], t) || TakenTask(r[k].thr[j], t) || DrainingTask(r[k].thr[j], t)
    ensures i == j
  {
    ReachableInv(r, k);
    OwnerIs(r[k], t, i);
    OwnerIs(r[k], t, j);
  }

  lemma ListedOnce(r: seq<State>, k: nat, c: nat, d: nat, m: nat, n: nat)
    requires Run(r) && k < |r| && c < |r[k].cpus| && d < |r[k].cpus|
    requires m < |r[k].cpus[c].wakeList| && n < |r[k].cpus[d].wakeList|
    requires r[k].cpus[c].wakeList[m] == r[k].cpus[d].wakeList[n]
    ensures c == d && m == n
    ensures r[k].cpus[c].wakeList[m] < |r[k].tasks| && r[k].tasks[r[k].cpus[c].wakeList[m]].cpu == c
  {
    ReachableInv(r, k);
    var s := r[k];
    assert CpuOk(s, c) && CpuOk(s, d);
    assert TaskOk(s, s.cpus[c].wakeList[m]);
  }

  /** When a waker picks the CPU, no CPU is running the task or still switching away from it. */
  lemma PlacedOffCpu(r: seq<State>, k: nat, i: nat, p: nat, c: nat)
    requires Run(r) && k < |r| && i < |r[k].thr| && r[k].thr[i] == WPlace(p) && c < |r[k].cpus|
    ensures p < |r[k].tasks| && !r[k].tasks[p].onCpu && r[k].tasks[p].onRq.Off?
    ensures r[k].cpus[c].curr != p && r[k].cpus[c].sched != SSwitch(p)
  {
    ReachableInv(r, k);
    PlacerFindsOff(r[k], i, p, c);
  }

  lemma PlacerFindsOff(s: State, i: nat, p: nat, c: nat)
    requires Inv(s) && i < |s.thr| && s.thr[i] == WPlace(p) && c < |s.cpus|
    ensures p < |s.tasks| && !s.tasks[p].onCpu && s.tasks[p].onRq.Off?
    ensures s.cpus[c].curr != p && s.cpus[c].sched != SSwitch(p)
  {
    assert ThreadOk(s, i) && TaskOk(s, p) && CpuOk(s, c);
  }

  // ---------------------------------------------------------------- load accounting

  /** A dequeued load-contributing sleeper, or a waker in flight with sched_contributes_to_load set. */
  predicate CountsAsLoad(x: Task) {
    x.onRq.Off? && (if x.state.Waking? then x.contrib else x.state.Uninterruptible? && !x.frozen)
  }

  function LoadSet(ts: seq<Task>): set<nat> {
    set t: nat | t < |ts| && CountsAsLoad(ts[t])
  }

  lemma {:induction false} SumLoadIsCount(ts: seq<Task>)
    ensures SumLoad(ts) == |LoadSet(ts)|
  {
    if ts == [] {
      assert LoadSet(ts) == {};
    } else {
      var n := |ts| - 1;
      SumLoadIsCount(ts[..n]);
      assert LoadSet(ts) == if CountsAsLoad(ts[n]) then LoadSet(ts[..n]) + {n} else LoadSet(ts[..n]);
    }
  }

  /** nr_uninterruptible, summed over all CPUs, counts exactly those tasks in every reachable state. */
  lemma LoadIsConserved(r: seq<State>, k: nat)
    requires Run(r) && k < |r|
    ensures SumNr(r[k].cpus) == |LoadSet(r[k].tasks)|
  {
    ReachableInv(r, k);
    SumLoadIsCount(r[k].tasks);
  }

  // ---------------------------------------------------------------- remote wakeups

  /** A non-empty wake_list always has somebody who will make its CPU look at it. */
  lemma NoStrandedWakeup(r: seq<State>, k: nat, c: nat)
    requires Run(r) && k < |r| && c < |r[k].cpus| && r[k].cpus[c].wakeList != []
    ensures || r[k].cpus[c].ipi
            || (r[k].cpus[c].polling && r[k].cpus[c].needResched && r[k].cpus[c].curr == r[k].cpus[c].idle)
            || exists i :: 0 <= i < |r[k].thr| && Rescuer(r[k].thr[i], c)
  {
    ReachableInv(r, k);
    assert Rescued(r[k], c) && CpuOk(r[k], c);
  }

  /** Each remote wakeup is activated by a drain exactly once: never twice, and never dropped. */
  lemma RemoteWakeupsBalance(r: seq<State>, k: nat, t: nat)
    requires Run(r) && k < |r| && t < |r[k].tasks|
    ensures r[k].tasks[t].remoteQueued == r[k].tasks[t].remoteActivated + (if IsListed(r[k], t) then 1 else 0)
  {
    ReachableInv(r, k);
    ListedMeans(r[k], t);
    assert TaskOk(r[k], t);
  }

  /** Once every thread is done and no flag is pending, every wakeup has been delivered. */
  lemma QuietMeansDelivered(r: seq<State>, k: nat, t: nat)
    requires Run(r) && k < |r| && t < |r[k].tasks|
    requires forall i :: 0 <= i < |r[k].thr| ==> r[k].thr[i].Idle?
    requires forall c :: 0 <= c < |r[k].cpus| ==>
      !r[k].cpus[c].ipi && !(r[k].cpus[c].polling && r[k].cpus[c].needResched)
    ensures r[k].tasks[t].remoteQueued == r[k].tasks[t].remoteActivated
    ensures IsQueued(r[k], t) || IsAsleep(r[k].tasks[t])
  {
    ReachableInv(r, k);
    var s := r[k];
    QueuedMeans(s, t);
    assert TaskOk(s, t);
    if s.tasks[t].at.Listed? { NoStrandedWakeup(r, k, s.tasks[t].cpu); }
  }

  // ---------------------------------------------------------------- what the steps bring about

  /** p may be picked: its state is TASK_RUNNING and it is in the queue of CPU c. */
  predicate RunnableOn(s: State, p: nat, c: nat) {
    p < |s.tasks| && c < |s.cpus| && s.tasks[p].state.Running? && s.tasks[p].cpu == c && s.cpus[c].queue[p] > 0
  }

  ghost predicate Runnable(s: State, p: nat) {
    exists c: nat :: RunnableOn(s, p, c)
  }

  ghost predicate OnWakeList(s: State, p: nat) {
    exists c :: 0 <= c < |s.cpus| && p in s.cpus[c].wakeList
  }

  /** A step that changes the program point of thread i is a step of thread i. */
  lemma StepOfThread(s: State, s': State, i: nat) returns (a: Act)
    requires Next(s, s') && i < |s.thr| && i < |s'.thr| && s'.thr[i] != s.thr[i]
    ensures Exec(s, ByThread(i, a)) == Some(s')
  {
    var step :| Exec(s, step) == Some(s');
    match step
    case ByThread(j, b) =>
      if j != i { OthersStay(s, j, b, i); }
      a := b;
    case ByCpu(c, b) =>
      ThreadsStay(s, c, b);
      assert false;
  }

  lemma LockLeavesThread(s: State, j: nat, a: Act, i: nat)
    requires Shape(s) && j < |s.thr| && i < |s.thr| && i != j && LockStep(s, j, a).Some?
    ensures |LockStep(s, j, a).value.thr| == |s.thr| && LockStep(s, j, a).value.thr[i] == s.thr[i]
  {
  }

  lemma SwapLeavesThread(s: State, j: nat, a: Act, i: nat)
    requires Shape(s) && j < |s.thr| && i < |s.thr| && i != j && SwapStep(s, j, a).Some?
    ensures |SwapStep(s, j, a).value.thr| == |s.thr| && SwapStep(s, j, a).value.thr[i] == s.thr[i]
  {
  }

  lemma WakeLeavesThread(s: State, j: nat, a: Act, i: nat)
    requires Shape(s) && j < |s.thr| && i < |s.thr| && i != j && WakeStep(s, j, a).Some?
    ensures |WakeStep(s, j, a).value.thr| == |s.thr| && WakeStep(s, j, a).value.thr[i] == s.thr[i]
  {
  }

  lemma DrainLeavesThread(s: State, j: nat, a: Act, i: nat)
    requires Shape(s) && j < |s.thr| && i < |s.thr| && i != j && DrainStep(s, j, a).Some?
    ensures |DrainStep(s, j, a).value.thr| == |s.thr| && DrainStep(s, j, a).value.thr[i] == s.thr[i]
  {
  }

  lemma OthersStay(s: State, j: nat, a: Act, i: nat)
    requires Shape(s) && i < |s.thr| && i != j && Exec(s, ByThread(j, a)).Some?
    ensures |Exec(s, ByThread(j, a)).value.thr| == |s.thr| && Exec(s, ByThread(j, a)).value.thr[i] == s.thr[i]
  {
    if LockStep(s, j, a).Some? { LockLeavesThread(s, j, a, i); }
    else if SwapStep(s, j, a).Some? { SwapLeavesThread(s, j, a, i); }
    else if WakeStep(s, j, a).Some? { WakeLeavesThread(s, j, a, i); }
    else { DrainLeavesThread(s, j, a, i); }
  }

  lemma ThreadsStay(s: State, c: nat, b: SchedAct)
    requires Shape(s) && c < |s.cpus| && SchedStep(s, c, b).Some?
    ensures SchedStep(s, c, b).value.thr == s.thr
  {
  }

  /** A step that changes where __schedule stands on CPU c is a step of CPU c. */
  lemma StepOfCpu(s: State, s': State, c: nat) returns (b: SchedAct)
    requires Next(s, s') && c < |s.cpus| && c < |s'.cpus| && s'.cpus[c].sched != s.cpus[c].sched
    ensures SchedStep(s, c, b) == Some(s')
  {
    var step :| Exec(s, step) == Some(s');
    match step
    case ByThread(j, a) =>
      SchedsStay(s, j, a, c);
      assert false;
    case ByCpu(d, x) =>
      if d != c { OtherSchedsStay(s, d, x, c); }
      b := x;
  }

  lemma LockLeavesSched(s: State, j: nat, a: Act, c: nat)
    requires Shape(s) && j < |s.thr| && c < |s.cpus| && LockStep(s, j, a).Some?
    ensures |LockStep(s, j, a).value.cpus| == |s.cpus| && LockStep(s, j, a).value.cpus[c].sched == s.cpus[c].sched
  {
  }

  lemma SwapLeavesSched(s: State, j: nat, a: Act, c: nat)
    requires Shape(s) && j < |s.thr| && c < |s.cpus| && SwapStep(s, j, a).Some?
    ensures |SwapStep(s, j, a).value.cpus| == |s.cpus| && SwapStep(s, j, a).value.cpus[c].sched == s.cpus[c].sched
  {
  }

  lemma WakeLeavesSched(s: State, j: nat, a: Act, c: nat)
    requires Shape(s) && j < |s.thr| && c < |s.cpus| && WakeStep(s, j, a).Some?
    ensures |WakeStep(s, j, a).value.cpus| == |s.cpus| && WakeStep(s, j, a).value.cpus[c].sched == s.cpus[c].sched
  {
  }

  lemma DrainLeavesSched(s: State, j: nat, a: Act, c: nat)
    requires Shape(s) && j < |s.thr| && c < |s.cpus| && DrainStep(s, j, a).Some?
    ensures |DrainStep(s, j, a).value.cpus| == |s.cpus| && DrainStep(s, j, a).value.cpus[c].sched == s.cpus[c].sched
  {
  }

  lemma SchedsStay(s: State, j: nat, a: Act, c: nat)
    requires Shape(s) && c < |s.cpus| && Exec(s, ByThread(j, a)).Some?
    ensures |Exec(s, ByThread(j, a)).value.cpus| == |s.cpus|
    ensures Exec(s, ByThread(j, a)).value.cpus[c].sched == s.cpus[c].sched
  {
    if LockStep(s, j, a).Some? { LockLeavesSched(s, j, a, c); }
    else if SwapStep(s, j, a).Some? { SwapLeavesSched(s, j, a, c); }
    else if WakeStep(s, j, a).Some? { WakeLeavesSched(s, j, a, c); }
    else { DrainLeavesSched(s, j, a, c); }
  }

  lemma OtherSchedsStay(s: State, d: nat, b: SchedAct, c: nat)
    requires Shape(s) && c < |s.cpus| && d < |s.cpus| && c != d && SchedStep(s, d, b).Some?
    ensures |SchedStep(s, d, b).value.cpus| == |s.cpus|
    ensures SchedStep(s, d, b).value.cpus[c].sched == s.cpus[c].sched
  {
  }

  lemma QueuedHere(s: State, p: nat)
    requires Inv(s) && p < |s.tasks| && s.tasks[p].onRq.Queued?
    ensures s.tasks[p].cpu < |s.cpus| && s.cpus[s.tasks[p].cpu].queue[p] > 0
  {
    assert CpuOk(s, s.tasks[p].cpu);
  }

  lemma RemoteEffect(s: State, i: nat, p: nat, c: nat, a: Act)
    requires Inv(s) && i < |s.thr| && s.thr[i] == WRemote(p, c) && Exec(s, ByThread(i, a)).Some?
    ensures var s' := Exec(s, ByThread(i, a)).value;
      |s'.thr| == |s.thr| &&
      if s.tasks[p].onRq.Queued? then s'.thr[i] == WOut(p) && RunnableOn(s', p, c) else s'.thr[i] == WSpin(p)
  {
    assert ThreadOk(s, i);
    if s.tasks[p].onRq.Queued? { QueuedHere(s, p); }
  }

  lemma WakeEffect(s: State, i: nat, p: nat, c: nat, a: Act)
    requires Inv(s) && i < |s.thr| && s.thr[i] == WWake(p, c) && Exec(s, ByThread(i, a)).Some?
    ensures var s' := Exec(s, ByThread(i, a)).value;
      |s'.thr| == |s.thr| && s'.thr[i] == WOut(p) && RunnableOn(s', p, c)
  {
    StartedIs(s, i, p);
    assert ThreadOk(s, i);
    QueuedHere(s, p);
  }

  lemma DrainEffect(s: State, i: nat, p: nat, c: nat, l: seq<nat>, a: Act)
    requires Inv(s) && i < |s.thr| && s.thr[i] == DWake(p, c, l) && Exec(s, ByThread(i, a)).Some?
    ensures var s' := Exec(s, ByThread(i, a)).value;
      |s'.thr| == |s.thr| && s'.thr[i] == DLoop(c, l) && RunnableOn(s', p, c)
  {
    StartedIs(s, i, p);
    assert ThreadOk(s, i);
    QueuedHere(s, p);
  }

  lemma QueueEffect(s: State, i: nat, p: nat, c: nat, a: Act)
    requires Inv(s) && i < |s.thr| && s.thr[i] == WQueue(p, c) && Exec(s, ByThread(i, a)).Some?
    ensures var s' := Exec(s, ByThread(i, a)).value;
      |s'.thr| == |s.thr| && |s'.cpus| == |s.cpus| && c < |s.cpus| &&
      (s'.thr[i] == WAct(p, c)
       || (p in s'.cpus[c].wakeList && s'.thr[i] == if s.cpus[c].wakeList == [] then WKick(p, c) else WOut(p)))
  {
    assert ThreadOk(s, i);
  }

  /** A wakeup that finds p queued, or has activated it, ends with p ready to be picked. */
  lemma WokenIsRunnable(r: seq<State>, k: nat, i: nat, p: nat, c: nat)
    requires Run(r) && k + 1 < |r| && i < |r[k].thr| && i < |r[k + 1].thr|
    requires r[k].thr[i] == WRemote(p, c) || r[k].thr[i] == WWake(p, c)
    requires r[k + 1].thr[i] == WOut(p)
    ensures RunnableOn(r[k + 1], p, c)
  {
    ReachableInv(r, k);
    assert Next(r[k], r[k + 1]);
    var a := StepOfThread(r[k], r[k + 1], i);
    if r[k].thr[i].WRemote? { RemoteEffect(r[k], i, p, c, a); } else { WakeEffect(r[k], i, p, c, a); }
  }

  /** A drain that is done with p leaves it ready to be picked. */
  lemma DrainedIsRunnable(r: seq<State>, k: nat, i: nat, p: nat, c: nat, l: seq<nat>)
    requires Run(r) && k + 1 < |r| && i < |r[k].thr| && i < |r[k + 1].thr|
    requires r[k].thr[i] == DWake(p, c, l) && r[k + 1].thr[i] != r[k].thr[i]
    ensures RunnableOn(r[k + 1], p, c)
  {
    ReachableInv(r, k);
    assert Next(r[k], r[k + 1]);
    var a := StepOfThread(r[k], r[k + 1], i);
    DrainEffect(r[k], i, p, c, l, a);
  }

  lemma LocalEffect(s: State, c: nat, w: nat, b: SchedAct)
    requires Inv(s) && c < |s.cpus| && s.cpus[c].sched == SLocal(w) && SchedStep(s, c, b).Some? && !b.Resched?
    requires s.tasks[w].state.Interruptible? || s.tasks[w].state.Uninterruptible?
    ensures RunnableOn(SchedStep(s, c, b).value, w, c)
  {
    assert CpuOk(s, c);
    if s.tasks[w].onRq.Queued? { QueuedHere(s, w); }
  }

  /** So does the wakeup of a sleeping worker by the CPU's own __schedule. */
  lemma LocallyWokenIsRunnable(r: seq<State>, k: nat, c: nat, w: nat)
    requires Run(r) && k + 1 < |r| && c < |r[k].cpus| && c < |r[k + 1].cpus|
    requires r[k].cpus[c].sched == SLocal(w) && r[k + 1].cpus[c].sched != SLocal(w) && w < |r[k].tasks|
    requires r[k].tasks[w].state.Interruptible? || r[k].tasks[w].state.Uninterruptible?
    ensures RunnableOn(r[k + 1], w, c)
  {
    ReachableInv(r, k);
    assert Next(r[k], r[k + 1]);
    var b := StepOfCpu(r[k], r[k + 1], c);
    LocalEffect(r[k], c, w, b);
  }

  // ---------------------------------------------------------------- the other steps of a thread

  lemma TestEffect(s: State, i: nat, p: nat, mask: set<RunState>, a: Act)
    requires Inv(s) && i < |s.thr| && s.thr[i] == WPi(p, mask) && Exec(s, ByThread(i, a)).Some?
    ensures p < |s.tasks| && i < |Exec(s, ByThread(i, a)).value.thr|
    ensures Exec(s, ByThread(i, a)).value.thr[i] == if s.tasks[p].state in mask then WTest(p) else WOut(p)
  {
    assert ThreadOk(s, i);
  }

  /** A wakeup goes on exactly for a task whose state is one of those asked for. */
  lemma StateIsTested(r: seq<State>, k: nat, i: nat, p: nat, mask: set<RunState>)
    requires Run(r) && k + 1 < |r| && i < |r[k].thr| && i < |r[k + 1].thr|
    requires r[k].thr[i] == WPi(p, mask) && r[k + 1].thr[i] != r[k].thr[i]
    ensures p < |r[k].tasks|
    ensures r[k + 1].thr[i] == if r[k].tasks[p].state in mask then WTest(p) else WOut(p)
  {
    ReachableInv(r, k);
    assert Next(r[k], r[k + 1]);
    var a := StepOfThread(r[k], r[k + 1], i);
    TestEffect(r[k], i, p, mask, a);
  }

  lemma AimEffect(s: State, i: nat, p: nat, a: Act)
    requires Inv(s) && i < |s.thr| && (s.thr[i] == WTest(p) || s.thr[i] == WRead(p)) && Exec(s, ByThread(i, a)).Some?
    ensures p < |s.tasks| && i < |Exec(s, ByThread(i, a)).value.thr|
    ensures Exec(s, ByThread(i, a)).value.thr[i] ==
      if s.thr[i].WRead? then WLock(p, s.tasks[p].cpu) else if s.tasks[p].onRq.Off? then WSpin(p) else WRead(p)
  {
    assert ThreadOk(s, i);
  }

  /** A task that is on a queue, or on its way to one, is looked for on its own CPU; a sleeper is waited for. */
  lemma WakerAims(r: seq<State>, k: nat, i: nat, p: nat)
    requires Run(r) && k + 1 < |r| && i < |r[k].thr| && i < |r[k + 1].thr| && r[k + 1].thr[i] != r[k].thr[i]
    requires r[k].thr[i] == WTest(p) || r[k].thr[i] == WRead(p)
    ensures p < |r[k].tasks|
    ensures r[k + 1].thr[i] ==
      if r[k].thr[i].WRead? then WLock(p, r[k].tasks[p].cpu)
      else if r[k].tasks[p].onRq.Off? then WSpin(p) else WRead(p)
  {
    ReachableInv(r, k);
    assert Next(r[k], r[k + 1]);
    var a := StepOfThread(r[k], r[k + 1], i);
    AimEffect(r[k], i, p, a);
  }

  /** p belongs to rq c and is not mid-migration. */
  predicate Settles(s: State, p: nat, c: nat) {
    p < |s.tasks| && s.tasks[p].cpu == c && !s.tasks[p].onRq.Migrating?
  }

  lemma RecheckEffect(s: State, i: nat, p: nat, c: nat, a: Act)
    requires Inv(s) && i < |s.thr| && Exec(s, ByThread(i, a)).Some?
    requires s.thr[i] == TLocked(p, c) || s.thr[i] == WLocked(p, c)
    ensures var s' := Exec(s, ByThread(i, a)).value;
      i < |s'.thr| &&
      if s.thr[i].TLocked? then s'.thr[i] == (if Settles(s, p, c) then THold(p, c) else Idle)
      else s'.thr[i] == if Settles(s, p, c) then WRemote(p, c) else WRead(p)
  {
    assert ThreadOk(s, i);
  }

  /** The lock is kept exactly when p is settled on the rq that was locked; otherwise it is dropped. */
  lemma RecheckDecides(r: seq<State>, k: nat, i: nat, p: nat, c: nat)
    requires Run(r) && k + 1 < |r| && i < |r[k].thr| && i < |r[k + 1].thr| && r[k + 1].thr[i] != r[k].thr[i]
    requires r[k].thr[i] == TLocked(p, c) || r[k].thr[i] == WLocked(p, c)
    ensures HasTaskRq(r[k + 1], i, p, c) <==> Settles(r[k], p, c)
    ensures !Settles(r[k], p, c) ==> r[k + 1].thr[i] == if r[k].thr[i].TLocked? then Idle else WRead(p)
  {
    ReachableInv(r, k);
    assert Next(r[k], r[k + 1]);
    var a := StepOfThread(r[k], r[k + 1], i);
    RecheckEffect(r[k], i, p, c, a);
  }

  lemma MoveEffect(s: State, i: nat, p: nat, dst: nat, b: bool, a: Act)
    requires Inv(s) && i < |s.thr| && s.thr[i] == MRe(p, dst, b) && Exec(s, ByThread(i, a)).Some?
    ensures var s' := Exec(s, ByThread(i, a)).value;
      && i < |s'.thr| && s'.thr[i] == MDone(p, dst, b)
      && p < |s.tasks| == |s'.tasks| && dst < |s'.cpus| && s'.tasks[p].cpu == dst && s'.cpus[dst].queue[p] > 0
      && s'.tasks[p].state == s.tasks[p].state
  {
    assert ThreadOk(s, i);
  }

  /** A move ends with p in the queue of the CPU it was meant for, in the state it was in. */
  lemma MoveArrives(r: seq<State>, k: nat, i: nat, p: nat, dst: nat, b: bool)
    requires Run(r) && k + 1 < |r| && i < |r[k].thr| && i < |r[k + 1].thr|
    requires r[k].thr[i] == MRe(p, dst, b) && r[k + 1].thr[i] != r[k].thr[i]
    ensures p < |r[k].tasks| == |r[k + 1].tasks| && dst < |r[k + 1].cpus|
    ensures r[k + 1].tasks[p].cpu == dst && r[k + 1].cpus[dst].queue[p] > 0
    ensures r[k + 1].tasks[p].state == r[k].tasks[p].state
  {
    ReachableInv(r, k);
    assert Next(r[k], r[k + 1]);
    var a := StepOfThread(r[k], r[k + 1], i);
    MoveEffect(r[k], i, p, dst, b, a);
  }

  /** Once p is dequeued for a move, its CPU is the one it leaves, and from then on the one it goes to. */
  lemma MoveIsUnderWay(r: seq<State>, k: nat, i: nat, p: nat)
    requires Run(r) && k < |r| && i < |r[k].thr| && MovingTask(r[k].thr[i], p)
    ensures p < |r[k].tasks| && !IsQueued(r[k], p)
    ensures r[k].tasks[p].cpu == if r[k].thr[i].MDeq? then r[k].thr[i].c else r[k].thr[i].dst
  {
    ReachableInv(r, k);
    assert ThreadOk(r[k], i);
    QueuedMeans(r[k], p);
  }

  lemma SwapEffect(s: State, i: nat, p: nat, c: nat, d: nat, pc: Pc, a: Act)
    requires Inv(s) && i < |s.thr| && SwapTurn(s.thr[i], p, c, d, pc) && Exec(s, ByThread(i, a)).Some?
    ensures var s' := Exec(s, ByThread(i, a)).value;
      && i < |s'.thr| && s'.thr[i] == pc && p < |s.tasks| == |s'.tasks| && d < |s.cpus| == |s'.cpus|
      && (if s.tasks[p].onRq.Queued? then s'.tasks == s.tasks[p := s.tasks[p].(cpu := d)] && s'.cpus[d].queue[p] > 0
          else s'.tasks == s.tasks && s'.cpus == s.cpus)
  {
    SwapFacts(s, i, p, c, d, pc);
  }

  /** Each turn of a swap brings a queued task to the other CPU, and leaves everything else about tasks alone. */
  lemma SwapArrives(r: seq<State>, k: nat, i: nat, p: nat, c: nat, d: nat, pc: Pc)
    requires Run(r) && k + 1 < |r| && i < |r[k].thr| && i < |r[k + 1].thr|
    requires SwapTurn(r[k].thr[i], p, c, d, pc) && r[k + 1].thr[i] != r[k].thr[i]
    ensures r[k + 1].thr[i] == pc && p < |r[k].tasks| && d < |r[k + 1].cpus|
    ensures if r[k].tasks[p].onRq.Queued?
      then r[k + 1].tasks == r[k].tasks[p := r[k].tasks[p].(cpu := d)] && r[k + 1].cpus[d].queue[p] > 0
      else r[k + 1].tasks == r[k].tasks && r[k + 1].cpus == r[k].cpus
  {
    ReachableInv(r, k);
    assert Next(r[k], r[k + 1]);
    var a := StepOfThread(r[k], r[k + 1], i);
    SwapEffect(r[k], i, p, c, d, pc, a);
  }

  lemma SwapCheckEffect(s: State, i: nat, p: nat, q: nat, c: nat, d: nat, a: Act)
    requires Inv(s) && i < |s.thr| && s.thr[i] == SwapHeld(p, q, c, d) && Exec(s, ByThread(i, a)).Some?
    ensures p < |s.tasks| && q < |s.tasks| && i < |Exec(s, ByThread(i, a)).value.thr|
    ensures Exec(s, ByThread(i, a)).value.thr[i] ==
      if s.tasks[p].cpu == c && s.tasks[q].cpu == d && d in s.allowed[p] && c in s.allowed[q]
      then SwapOne(p, q, c, d) else SwapDone(p, q, c, d)
  {
    assert ThreadOk(s, i);
  }

  /** Two tasks are swapped exactly when they are where they were thought to be and each may run where the other is. */
  lemma SwapDecides(r: seq<State>, k: nat, i: nat, p: nat, q: nat, c: nat, d: nat)
    requires Run(r) && k + 1 < |r| && i < |r[k].thr| && i < |r[k + 1].thr|
    requires r[k].thr[i] == SwapHeld(p, q, c, d) && r[k + 1].thr[i] != r[k].thr[i]
    ensures p < |r[k].tasks| == |r[k].allowed| && q < |r[k].tasks|
    ensures r[k + 1].thr[i] ==
      if r[k].tasks[p].cpu == c && r[k].tasks[q].cpu == d && d in r[k].allowed[p] && c in r[k].allowed[q]
      then SwapOne(p, q, c, d) else SwapDone(p, q, c, d)
  {
    ReachableInv(r, k);
    assert Next(r[k], r[k + 1]);
    var a := StepOfThread(r[k], r[k + 1], i);
    SwapCheckEffect(r[k], i, p, q, c, d, a);
  }

  lemma TakeEffect(s: State, i: nat, c: nat, a: Act)
    requires Inv(s) && i < |s.thr| && (s.thr[i] == DTest(c) || s.thr[i] == DStart(c)) && Exec(s, ByThread(i, a)).Some?
    ensures var s' := Exec(s, ByThread(i, a)).value;
      && i < |s'.thr| && c < |s.cpus| == |s'.cpus|
      && s'.thr[i] == (if s.cpus[c].wakeList == [] then Idle
                       else if s.thr[i].DTest? then DStart(c) else DLock(c, s.cpus[c].wakeList))
      && s'.cpus[c].wakeList == if s.thr[i].DTest? then s.cpus[c].wakeList else []
  {
    assert ThreadOk(s, i);
  }

  /** A drain takes the whole list and leaves it empty; there is nothing to do for an empty one. */
  lemma DrainTakesAll(r: seq<State>, k: nat, i: nat, c: nat)
    requires Run(r) && k + 1 < |r| && i < |r[k].thr| && i < |r[k + 1].thr| && r[k + 1].thr[i] != r[k].thr[i]
    requires r[k].thr[i] == DTest(c) || r[k].thr[i] == DStart(c)
    ensures c < |r[k].cpus| == |r[k + 1].cpus|
    ensures r[k + 1].thr[i] ==
      if r[k].cpus[c].wakeList == [] then Idle
      else if r[k].thr[i].DTest? then DStart(c) else DLock(c, r[k].cpus[c].wakeList)
    ensures r[k + 1].cpus[c].wakeList == if r[k].thr[i].DTest? then r[k].cpus[c].wakeList else []
  {
    ReachableInv(r, k);
    assert Next(r[k], r[k + 1]);
    var a := StepOfThread(r[k], r[k + 1], i);
    TakeEffect(r[k], i, c, a);
  }

  lemma HeadEffect(s: State, i: nat, c: nat, l: seq<nat>, a: Act)
    requires Inv(s) && i < |s.thr| && s.thr[i] == DLoop(c, l) && Exec(s, ByThread(i, a)).Some?
    ensures var s' := Exec(s, ByThread(i, a)).value;
      && i < |s'.thr| && c < |s'.cpus|
      && s'.thr[i] == (if l == [] then Idle else DWake(l[0], c, l[1..]))
      && (l != [] ==> s'.cpus[c].queue[l[0]] > 0)
  {
    assert ThreadOk(s, i);
  }

  /** It activates the tasks from the head of the list on, one at a time, and ends when none is left. */
  lemma DrainsInOrder(r: seq<State>, k: nat, i: nat, c: nat, l: seq<nat>)
    requires Run(r) && k + 1 < |r| && i < |r[k].thr| && i < |r[k + 1].thr|
    requires r[k].thr[i] == DLoop(c, l) && r[k + 1].thr[i] != r[k].thr[i]
    ensures r[k + 1].thr[i] == if l == [] then Idle else DWake(l[0], c, l[1..])
    ensures l != [] ==> c < |r[k + 1].cpus| && r[k + 1].cpus[c].queue[l[0]] > 0
  {
    ReachableInv(r, k);
    assert Next(r[k], r[k + 1]);
    var a := StepOfThread(r[k], r[k + 1], i);
    HeadEffect(r[k], i, c, l, a);
  }

  lemma IpiEffect(s: State, i: nat, c: nat, a: Act)
    requires Shape(s) && i < |s.thr| && s.thr[i].Idle? && Exec(s, ByThread(i, a)).Some?
    requires i < |Exec(s, ByThread(i, a)).value.thr| && Exec(s, ByThread(i, a)).value.thr[i] == DTest(c)
    ensures c < |s.cpus| == |Exec(s, ByThread(i, a)).value.cpus|
    ensures s.cpus[c].ipi && !Exec(s, ByThread(i, a)).value.cpus[c].ipi
  {
  }

  /** scheduler_ipi runs once for an interrupt that was sent. */
  lemma IpiIsConsumed(r: seq<State>, k: nat, i: nat, c: nat)
    requires Run(r) && k + 1 < |r| && i < |r[k].thr| && i < |r[k + 1].thr|
    requires r[k].thr[i].Idle? && r[k + 1].thr[i] == DTest(c)
    ensures c < |r[k].cpus| == |r[k + 1].cpus| && r[k].cpus[c].ipi && !r[k + 1].cpus[c].ipi
  {
    assert Next(r[k], r[k + 1]);
    var a := StepOfThread(r[k], r[k + 1], i);
    IpiEffect(r[k], i, c, a);
  }

  lemma KickEffect(s: State, i: nat, p: nat, c: nat, a: Act)
    requires Inv(s) && i < |s.thr| && (s.thr[i] == WKick(p, c) || s.thr[i] == WIpi(p, c))
    requires Exec(s, ByThread(i, a)).Some?
    ensures var s' := Exec(s, ByThread(i, a)).value;
      && i < |s'.thr| && c < |s.cpus| == |s'.cpus|
      && (s.thr[i].WIpi? ==> s'.thr[i] == WOut(p) && s'.cpus[c].ipi)
      && (s.thr[i].WKick? && s.cpus[c].polling ==> s'.thr[i] == WOut(p) && s'.cpus[c].needResched)
      && (s.thr[i].WKick? && !s.cpus[c].polling ==> s'.thr[i] == WIpi(p, c))
  {
    assert ThreadOk(s, i);
  }

  /** A polling idle CPU is told to reschedule; any other one is sent an interrupt. */
  lemma KickReaches(r: seq<State>, k: nat, i: nat, p: nat, c: nat)
    requires Run(r) && k + 1 < |r| && i < |r[k].thr| && i < |r[k + 1].thr| && r[k + 1].thr[i] != r[k].thr[i]
    requires r[k].thr[i] == WKick(p, c) || r[k].thr[i] == WIpi(p, c)
    ensures c < |r[k].cpus| == |r[k + 1].cpus|
    ensures r[k].thr[i].WIpi? ==> r[k + 1].cpus[c].ipi
    ensures r[k].thr[i].WKick? ==>
      if r[k].cpus[c].polling then r[k + 1].cpus[c].needResched else r[k + 1].thr[i] == WIpi(p, c)
  {
    ReachableInv(r, k);
    assert Next(r[k], r[k + 1]);
    var a := StepOfThread(r[k], r[k + 1], i);
    KickEffect(r[k], i, p, c, a);
  }

  // ---------------------------------------------------------------- what __schedule does to tasks

  /** The current task is left queued as it is. */
  predicate StaysQueued(s: State, s': State, p: nat, c: nat) {
    && p < |s.tasks| && s'.tasks == s.tasks && c < |s.cpus| == |s'.cpus|
    && s'.cpus[c].sched == SPick && s'.cpus[c].queue == s.cpus[c].queue
  }

  /** A pending signal puts it back to TASK_RUNNING. */
  predicate IsSignalled(s: State, s': State, p: nat, c: nat) {
    && p < |s.tasks| && (s.tasks[p].state.Interruptible? || s.tasks[p].state.Uninterruptible?)
    && s'.tasks == s.tasks[p := s.tasks[p].(state := Running)] && c < |s'.cpus|
    && s'.cpus[c].sched == SPick && RunnableOn(s', p, c)
  }

  /** It leaves the queue and sleeps. */
  ghost predicate FallsAsleep(s: State, s': State, p: nat, c: nat) {
    && p < |s.tasks| == |s'.tasks| && !s.tasks[p].state.Running? && IsAsleep(s'.tasks[p])
    && s'.tasks[p].state == s.tasks[p].state && c < |s'.cpus| && s'.cpus[c].sched == SDeact && !IsQueued(s', p)
  }

  lemma PrevEffect(s: State, c: nat, b: SchedAct)
    requires Inv(s) && c < |s.cpus| && s.cpus[c].sched.SLocked? && SchedStep(s, c, b).Some? && !b.Resched?
    ensures var s', p := SchedStep(s, c, b).value, s.cpus[c].curr;
      match b
      case Preempted => StaysQueued(s, s', p, c)
      case Signal => IsSignalled(s, s', p, c)
      case _ => FallsAsleep(s, s', p, c)
  {
    assert CpuOk(s, c);
    var p, s' := s.cpus[c].curr, SchedStep(s, c, b).value;
    assert TaskOk(s, p);
    if b.Deactivate? {
      SchedInv(s, c, b);
      QueuedMeans(s', p);
    }
  }

  /** Under its lock __schedule leaves the current task queued, or wakes it for a signal, or puts it to sleep. */
  lemma PrevOutcome(r: seq<State>, k: nat, c: nat)
    requires Run(r) && k + 1 < |r| && c < |r[k].cpus| && c < |r[k + 1].cpus|
    requires r[k].cpus[c].sched.SLocked? && !r[k + 1].cpus[c].sched.SLocked?
    ensures var s, s', p := r[k], r[k + 1], r[k].cpus[c].curr;
      StaysQueued(s, s', p, c) || IsSignalled(s, s', p, c) || FallsAsleep(s, s', p, c)
  {
    ReachableInv(r, k);
    assert Next(r[k], r[k + 1]);
    var b := StepOfCpu(r[k], r[k + 1], c);
    PrevEffect(r[k], c, b);
  }

  lemma PrevStepIs(s: State, c: nat, b: SchedAct)
    requires Inv(s) && c < |s.cpus| && s.cpus[c].sched.SLocked? && !s.tasks[s.cpus[c].curr].state.Running?
    requires b.Deactivate? || b.Signal? || b.Preempted?
    ensures SchedStep(s, c, b).Some? && Next(s, SchedStep(s, c, b).value)
  {
    assert CpuOk(s, c) && TaskOk(s, s.cpus[c].curr);
    assert Exec(s, ByCpu(c, b)) == SchedStep(s, c, b);
  }

  /** A task about to sleep may do so, and may as well be kept from it by a preemption or a signal. */
  lemma PrevMay(s: State, c: nat)
    requires Inv(s) && c < |s.cpus| && s.cpus[c].sched.SLocked? && !s.tasks[s.cpus[c].curr].state.Running?
    ensures exists s' :: Next(s, s') && FallsAsleep(s, s', s.cpus[c].curr, c)
    ensures exists s' :: Next(s, s') && IsSignalled(s, s', s.cpus[c].curr, c)
    ensures exists s' :: Next(s, s') && StaysQueued(s, s', s.cpus[c].curr, c)
  {
    PrevStepIs(s, c, Deactivate);
    PrevEffect(s, c, Deactivate);
    PrevStepIs(s, c, Signal);
    PrevEffect(s, c, Signal);
    PrevStepIs(s, c, Preempted);
    PrevEffect(s, c, Preempted);
  }

  lemma PickEffect(s: State, c: nat, b: SchedAct)
    requires Inv(s) && c < |s.cpus| && s.cpus[c].sched.SPick? && SchedStep(s, c, b).Some? && !b.Resched?
    ensures var s', p := SchedStep(s, c, b).value, s.cpus[c].curr;
      && c < |s'.cpus| && s'.cpus[c].queue == s.cpus[c].queue && s.cpus[c].queue[s'.cpus[c].curr] > 0
      && s'.cpus[c].curr < |s'.tasks| && s'.tasks[s'.cpus[c].curr].onCpu
      && (s'.cpus[c].needResched <==> s.cpus[c].needResched && p != s.cpus[c].idle)
      && s'.cpus[c].sched == if s'.cpus[c].curr == p then SOut else SSwitch(p)
  {
    assert CpuOk(s, c);
  }

  /** What is picked is in the queue and running; unless it is the current task, a switch from that one follows. */
  lemma PickSwitches(r: seq<State>, k: nat, c: nat)
    requires Run(r) && k + 1 < |r| && c < |r[k].cpus| && c < |r[k + 1].cpus|
    requires r[k].cpus[c].sched.SPick? && !r[k + 1].cpus[c].sched.SPick?
    ensures var was, now := r[k].cpus[c], r[k + 1].cpus[c];
      && now.queue[now.curr] > 0 && now.curr < |r[k + 1].tasks| && r[k + 1].tasks[now.curr].onCpu
      && (now.needResched <==> was.needResched && was.curr != was.idle)
      && now.sched == if now.curr == was.curr then SOut else SSwitch(was.curr)
  {
    ReachableInv(r, k);
    assert Next(r[k], r[k + 1]);
    var b := StepOfCpu(r[k], r[k + 1], c);
    PickEffect(r[k], c, b);
  }

  /** Any queued task may be picked. */
  lemma AnyMayBePicked(s: State, c: nat, p: nat)
    requires Inv(s) && c < |s.cpus| && s.cpus[c].sched.SPick? && p < |s.tasks| && s.cpus[c].queue[p] > 0
    ensures exists s' :: Next(s, s') && c < |s'.cpus| && s'.cpus[c].curr == p
  {
    assert Exec(s, ByCpu(c, Pick(p))).Some?;
    assert Next(s, Exec(s, ByCpu(c, Pick(p))).value);
  }

  /** When the switch is done the previous task is off the CPU, and only then may a waker place it. */
  lemma SwitchCompletes(r: seq<State>, k: nat, c: nat, prev: nat)
    requires Run(r) && k + 1 < |r| && c < |r[k].cpus| && c < |r[k + 1].cpus|
    requires r[k].cpus[c].sched == SSwitch(prev) && r[k + 1].cpus[c].sched != SSwitch(prev)
    ensures r[k + 1].cpus[c].sched == SOut && prev < |r[k + 1].tasks| && !r[k + 1].tasks[prev].onCpu
  {
    ReachableInv(r, k);
    assert Next(r[k], r[k + 1]);
    var b := StepOfCpu(r[k], r[k + 1], c);
    assert CpuOk(r[k], c);
  }

  // ---------------------------------------------------------------- a wakeup takes effect

  /** The program points of try_to_wake_up once it has found p in a state to be woken. */
  predicate InWakeup(pc: Pc, p: nat) {
    (pc.WTest? || pc.WRead? || pc.WLock? || pc.WLocked? || pc.WRemote? || pc.WSpin? || pc.WSpun?
     || pc.WPlace? || pc.WQueue? || pc.WAct? || pc.WWake? || pc.WKick? || pc.WIpi?) && pc.p == p
  }

  predicate Kicking(pc: Pc) {
    pc.WKick? || pc.WIpi?
  }

  /** p is ready to be picked, or the CPU that will activate it has it on its list. */
  ghost predicate Awake(s: State, p: nat) {
    Runnable(s, p) || OnWakeList(s, p)
  }

  /** What a step of the wakeup does: it goes on, or p is awake when it ends or starts to kick the CPU. */
  ghost predicate GoesOn(s: State, s': State, i: nat, p: nat) {
    i < |s.thr| && InWakeup(s.thr[i], p) ==>
      && |s'.thr| == |s.thr| && (InWakeup(s'.thr[i], p) || s'.thr[i] == WOut(p))
      && (Kicking(s'.thr[i]) || s'.thr[i] == WOut(p) ==> Kicking(s.thr[i]) || Awake(s', p))
  }

  lemma EarlyGoesOn(s: State, i: nat, p: nat, a: Act)
    requires Shape(s) && i < |s.thr| && InWakeup(s.thr[i], p) && Exec(s, ByThread(i, a)).Some?
    requires s.thr[i].WTest? || s.thr[i].WRead? || s.thr[i].WLock? || s.thr[i].WLocked?
    ensures GoesOn(s, Exec(s, ByThread(i, a)).value, i, p)
  {
  }

  lemma LateGoesOn(s: State, i: nat, p: nat, a: Act)
    requires Shape(s) && i < |s.thr| && InWakeup(s.thr[i], p) && Exec(s, ByThread(i, a)).Some?
    requires s.thr[i].WSpin? || s.thr[i].WSpun? || s.thr[i].WPlace? || s.thr[i].WAct?
    ensures GoesOn(s, Exec(s, ByThread(i, a)).value, i, p)
  {
  }

  lemma KickGoesOn(s: State, i: nat, p: nat, a: Act)
    requires Shape(s) && i < |s.thr| && InWakeup(s.thr[i], p) && Exec(s, ByThread(i, a)).Some? && Kicking(s.thr[i])
    ensures GoesOn(s, Exec(s, ByThread(i, a)).value, i, p)
  {
  }

  lemma EffectiveGoesOn(s: State, i: nat, p: nat, a: Act)
    requires Inv(s) && i < |s.thr| && InWakeup(s.thr[i], p) && Exec(s, ByThread(i, a)).Some?
    requires s.thr[i].WRemote? || s.thr[i].WWake? || s.thr[i].WQueue?
    ensures GoesOn(s, Exec(s, ByThread(i, a)).value, i, p)
  {
    var c := s.thr[i].c;
    if s.thr[i].WRemote? { RemoteEffect(s, i, p, c, a); }
    else if s.thr[i].WWake? { WakeEffect(s, i, p, c, a); }
    else { QueueEffect(s, i, p, c, a); }
  }

  lemma OwnStepGoesOn(s: State, i: nat, p: nat, a: Act)
    requires Inv(s) && i < |s.thr| && InWakeup(s.thr[i], p) && Exec(s, ByThread(i, a)).Some?
    ensures GoesOn(s, Exec(s, ByThread(i, a)).value, i, p)
  {
    var pc := s.thr[i];
    if pc.WTest? || pc.WRead? || pc.WLock? || pc.WLocked? { EarlyGoesOn(s, i, p, a); }
    else if pc.WRemote? || pc.WWake? || pc.WQueue? { EffectiveGoesOn(s, i, p, a); }
    else if Kicking(pc) { KickGoesOn(s, i, p, a); }
    else { LateGoesOn(s, i, p, a); }
  }

  lemma WakeupGoesOn(s: State, s': State, i: nat, p: nat)
    requires Inv(s) && Next(s, s')
    ensures GoesOn(s, s', i, p)
  {
    if i < |s.thr| && InWakeup(s.thr[i], p) {
      SameThreads(s, s');
      if s'.thr[i] != s.thr[i] {
        var a := StepOfThread(s, s', i);
        OwnStepGoesOn(s, i, p, a);
      }
    }
  }

  lemma SameThreads(s: State, s': State)
    requires Next(s, s')
    ensures |s'.thr| == |s.thr|
  {
    var step :| Exec(s, step) == Some(s');
    if step.ByCpu? { ThreadsStay(s, step.c, step.b); }
  }

  lemma RunGoesOn(r: seq<State>, i: nat, p: nat)
    requires Run(r)
    ensures forall k :: 0 < k < |r| ==> GoesOn(r[k - 1], r[k], i, p)
  {
    var rel := (s, s') => GoesOn(s, s', i, p);
    forall s | Init(s) ensures Inv(s) { InitInv(s); }
    forall s, s' | Inv(s) && Next(s, s') ensures Inv(s') && rel(s, s') {
      NextInv(s, s');
      WakeupGoesOn(s, s', i, p);
    }
    RunSteps(Init, Next, Inv, rel, r);
    forall k | 0 < k < |r| ensures GoesOn(r[k - 1], r[k], i, p) { assert rel(r[k - 1], r[k]); }
  }

  lemma {:induction false} WakeupTakes(r: seq<State>, k: nat, m: nat, i: nat, p: nat)
    requires k <= m < |r| && i < |r[k].thr| && r[k].thr[i] == WTest(p)
    requires forall n :: 0 < n < |r| ==> GoesOn(r[n - 1], r[n], i, p)
    requires forall j :: k <= j < m ==> i < |r[j].thr| && r[j].thr[i] != WOut(p)
    ensures i < |r[m].thr| && (InWakeup(r[m].thr[i], p) || r[m].thr[i] == WOut(p))
    ensures Kicking(r[m].thr[i]) || r[m].thr[i] == WOut(p) ==> exists j :: k <= j <= m && Awake(r[j], p)
  {
    if k < m {
      WakeupTakes(r, k, m - 1, i, p);
      assert GoesOn(r[m - 1], r[m], i, p);
      assert i < |r[m - 1].thr| && r[m - 1].thr[i] != WOut(p);
    }
  }

  /**
    A wakeup takes effect: between the moment a thread has found p in a state to be woken and the moment it is
    done, p is at some point ready to be picked or on the wake_list of a CPU.
   */
  lemma WakeupTakesEffect(r: seq<State>, k: nat, m: nat, i: nat, p: nat)
    requires Run(r) && k < m < |r| && i < |r[k].thr| && r[k].thr[i] == WTest(p)
    requires i < |r[m].thr| && r[m].thr[i] == WOut(p)
    requires forall j :: k <= j < m ==> i < |r[j].thr| && r[j].thr[i] != WOut(p)
    ensures exists j :: k <= j <= m && Awake(r[j], p)
  {
    RunGoesOn(r, i, p);
    WakeupTakes(r, k, m, i, p);
  }

  // ---------------------------------------------------------------- nobody is stuck

  /** What a thread at this program point waits for: a lock that is held, or a task that is still on a CPU. */
  predicate Waits(s: State, pc: Pc)
    requires |s.cpus| == |s.rq| && InRange(pc, |s.tasks|, |s.cpus|)
  {
    match pc
    case TRead(_, c) => !s.rq[c].Free?
    case MUnl(_, dst, _) => !s.rq[dst].Free?
    case WLock(_, c) => !s.rq[c].Free?
    case DLock(c, _) => !s.rq[c].Free?
    case SwapOne(p, _, _, _) => s.tasks[p].onCpu
    case SwapTwo(_, q, _, _) => s.tasks[q].onCpu
    case WSpin(p) => s.tasks[p].onCpu
    case _ => false
  }

  /** A move that a thread can make unless it waits. */
  function MoveOf(s: State, pc: Pc): Act
    requires InRange(pc, |s.tasks|, |s.cpus|)
  {
    match pc
    case THold(_, _) => Unlock
    case RqHeld(_) => Unlock
    case WPlace(p) => PlaceOn(s.tasks[p].cpu)
    case WQueue(_, _) => QueueRemote
    case _ => Go
  }

  predicate Moves(s: State, i: nat, r: Option<State>)
    requires i < |s.thr|
  {
    r.Some? && i < |r.value.thr| && r.value.thr[i] != s.thr[i]
  }

  lemma LockMoves(s: State, i: nat)
    requires Shape(s) && i < |s.thr| && InRange(s.thr[i], |s.tasks|, |s.cpus|) && !Waits(s, s.thr[i])
    requires var pc := s.thr[i];
      pc.TPi? || pc.TRead? || pc.TLocked? || pc.THold? || pc.RqHeld? || pc.MDeq? || pc.MSet? || pc.MUnl? || pc.MRe?
      || pc.MDone?
    ensures Moves(s, i, LockStep(s, i, MoveOf(s, s.thr[i])))
  {
  }

  lemma SwapMovesOn(s: State, i: nat)
    requires Shape(s) && i < |s.thr| && InRange(s.thr[i], |s.tasks|, |s.cpus|) && !Waits(s, s.thr[i])
    requires s.thr[i].SwapHeld? || s.thr[i].SwapOne? || s.thr[i].SwapTwo? || s.thr[i].SwapDone?
    ensures Moves(s, i, SwapStep(s, i, MoveOf(s, s.thr[i])))
  {
  }

  lemma WakeMoves(s: State, i: nat, p: nat)
    requires Shape(s) && i < |s.thr| && InRange(s.thr[i], |s.tasks|, |s.cpus|) && !Waits(s, s.thr[i])
    requires InWakeup(s.thr[i], p) || (s.thr[i].WPi? && s.thr[i].p == p) || s.thr[i] == WOut(p)
    requires p < |s.tasks| && TaskOk(s, p)
    ensures Moves(s, i, WakeStep(s, i, MoveOf(s, s.thr[i])))
  {
  }

  lemma DrainMoves(s: State, i: nat)
    requires Shape(s) && i < |s.thr| && InRange(s.thr[i], |s.tasks|, |s.cpus|) && !Waits(s, s.thr[i])
    requires s.thr[i].DTest? || s.thr[i].DStart? || s.thr[i].DLock? || s.thr[i].DLoop? || s.thr[i].DWake?
    ensures Moves(s, i, DrainStep(s, i, MoveOf(s, s.thr[i])))
  {
  }

  lemma ThreadMovesOn(s: State, i: nat)
    requires Inv(s) && i < |s.thr| && !s.thr[i].Idle? && !Waits(s, s.thr[i])
    ensures Moves(s, i, Exec(s, ByThread(i, MoveOf(s, s.thr[i]))))
  {
    var pc := s.thr[i];
    if pc.SwapHeld? || pc.SwapOne? || pc.SwapTwo? || pc.SwapDone? { SwapMovesOn(s, i); }
    else if pc.DTest? || pc.DStart? || pc.DLock? || pc.DLoop? || pc.DWake? { DrainMoves(s, i); }
    else if pc.TPi? || pc.TRead? || pc.TLocked? || pc.THold? || pc.RqHeld? || pc.MDeq? || pc.MSet? || pc.MUnl?
      || pc.MRe? || pc.MDone? { LockMoves(s, i); }
    else {
      assert TaskOk(s, pc.p);
      WakeMoves(s, i, pc.p);
    }
  }

  /** In every reachable state a thread that is at work can go on, unless it waits for a lock or for a running task. */
  lemma NobodyIsStuck(r: seq<State>, k: nat, i: nat)
    requires Run(r) && k < |r| && i < |r[k].thr| && !r[k].thr[i].Idle?
    ensures InRange(r[k].thr[i], |r[k].tasks|, |r[k].cpus|) && |r[k].cpus| == |r[k].rq|
    ensures !Waits(r[k], r[k].thr[i]) ==>
      exists s' :: Next(r[k], s') && i < |s'.thr| && s'.thr[i] != r[k].thr[i]
  {
    ReachableInv(r, k);
    var s := r[k];
    if !Waits(s, s.thr[i]) {
      ThreadMovesOn(s, i);
      assert Next(s, Exec(s, ByThread(i, MoveOf(s, s.thr[i]))).value);
    }
  }

  /** What an idle thread may begin once the locks that it takes first are free. */
  lemma MayBegin(s: State, i: nat, p: nat, c: nat, mask: set<RunState>)
    requires Shape(s) && i < |s.thr| && s.thr[i].Idle? && p < |s.tasks| && c < |s.cpus|
    ensures s.pi[p].Free? ==> Next(s, SetPc(s, i, TPi(p)))
    ensures s.pi[p].Free? && Running !in mask && Waking !in mask ==> Next(s, SetPc(s, i, WPi(p, mask)))
    ensures s.rq[c].Free? ==> Next(s, SetPc(s, i, RqHeld(c)))
    ensures Next(s, SetPc(s, i, DStart(c)))
  {
    if s.pi[p].Free? {
      assert Exec(s, ByThread(i, TaskRqLock(p))) == Some(SetPc(s, i, TPi(p)));
      if Running !in mask && Waking !in mask {
        assert Exec(s, ByThread(i, Wake(p, mask))) == Some(SetPc(s, i, WPi(p, mask)));
      }
    }
    if s.rq[c].Free? { assert Exec(s, ByThread(i, RqLock(c))) == Some(SetPc(s, i, RqHeld(c))); }
    assert Exec(s, ByThread(i, Drain(c))) == Some(SetPc(s, i, DStart(c)));
  }

  /** A lock holder may send any task that it may move on its way. */
  lemma MayMove(s: State, i: nat, p: nat, c: nat, dst: nat)
    requires Inv(s) && i < |s.thr| && Movable(s, p, c, dst) && (s.thr[i] == THold(p, c) || s.thr[i] == RqHeld(c))
    ensures exists s' :: Next(s, s') && i < |s'.thr| && s'.thr[i] == MDeq(p, c, dst, s.thr[i].THold?)
  {
    var step := ByThread(i, Move(p, dst));
    assert Exec(s, step).Some?;
    assert Next(s, Exec(s, step).value);
  }

  predicate HasAsked(s: State, s': State, p: nat, st: RunState, f: bool) {
    p < |s.tasks| && s'.tasks == s.tasks[p := s.tasks[p].(state := st, frozen := f)]
  }

  /** The running task may ask to sleep in any state but TASK_WAKING, and __schedule may be entered. */
  lemma MayAskToSleep(s: State, c: nat, st: RunState, f: bool)
    requires Inv(s) && c < |s.cpus| && s.cpus[c].sched.SOut?
    ensures !st.Waking? ==> exists s' :: Next(s, s') && HasAsked(s, s', s.cpus[c].curr, st, f)
    ensures s.rq[c].Free? && !s.cpus[c].polling ==>
      exists s' :: Next(s, s') && c < |s'.cpus| && s'.cpus[c].sched.SLocked?
  {
    if !st.Waking? {
      var step := ByCpu(c, SetState(st, f));
      assert Exec(s, step).Some?;
      assert Next(s, Exec(s, step).value);
    }
    if s.rq[c].Free? && !s.cpus[c].polling {
      var step := ByCpu(c, Lock);
      assert Exec(s, step).Some?;
      assert Next(s, Exec(s, step).value);
    }
  }
}
