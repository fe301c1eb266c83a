# The scheduler core, modelled and proved

A model of `assg4/core.c`, the hooked copy of the Linux scheduler core, and proofs of what its parts
promise. Every result is about all inputs, all runs, or all reachable states. Each module stands for
one cluster of the file:

| module | what it models |
|---|---|
| `RunQueueProtocol` | run-queue and pi locks, migration, wakeups (local, remote, queued) and `__schedule`, as interleaved atomic steps of any number of threads and CPUs |
| `TaskGroupTree` | the task-group tree and its non-recursive walk |
| `Bandwidth` | fixed-point ratios in 64-bit arithmetic, the sysctl limits |
| `RtGroups`, `CfsQuota` | admission of real-time bandwidth and of CFS quotas over that tree |
| `DlBandwidth` | admission of SCHED_DEADLINE bandwidth in a root domain |
| `NumaTopology` | NUMA distance levels and their CPU masks |
| `DomainChain`, `SchedGroups`, `Partition` | pruning a chain of scheduling domains, building its rings of groups, moving between partitions |
| `CpuDrain` | emptying the run queue of a dying CPU |
| `SchedParams` | policy, priority, class and queue of a task |
| `RqClock` | run-queue clock accounting |
| `Basics` | `Option`, finite runs of a transition system and their invariants |

`dafny verify dfyconfig.toml` checks everything.

Code that updates fields in place is a class (`RtControl`, `CfsControl`, `RootDomain`, `Topology`,
`SdData`, `Domains`, `Machine`, `TaskStruct`, `RunQueue`) whose methods equate the new state with a
function of the old one; the lemmas are about that function. What an operation brings about is stated a
second time without naming that function, in plain numbers and conditions on its arguments (`SetIsCarriedOut`,
`SetRefusedIff`, `SchedulableIff`, `LimitsAreCarriedOut`, `FallbackIs`, `TargetIs` and the like). The locking
protocol is concurrent and is a state machine over its steps, under sequential consistency; what its steps
bring about is stated over runs and program points.

## Assumptions

What lies outside the file, or is configured, is taken as follows.

- `walk_tg_tree` starts at `root_task_group`; `RUNTIME_INF` is the largest u64; a negative
  `sysctl_sched_rt_runtime` means no limit. The period sysctl is an unsigned int (line 309) and the runtime
  sysctl an int, so the comparison at line 7773 is unsigned.
- `task_contributes_to_load` means uninterruptible and not frozen. `prepare_lock_switch` sets `on_cpu`
  and `finish_lock_switch` clears it, both under the rq lock. The idle loop stops polling before it calls
  `schedule()` (the promise at lines 570-571), and a caller of a wakeup never asks for TASK_WAKING.
- Movers never move a running task and move only to another allowed CPU; `migrate_swap_stop` runs while
  the stoppers keep both tasks off their CPUs; a worker woken locally is bound to its CPU.
- A new group has real-time runtime 0 and the default period, a CFS period of 100 ms and no quota. At most
  2^43 siblings fit in memory, which is what keeps the 64-bit sum of their ratios from wrapping.
- Leaving the deadline class runs `__dl_clear_params`, and the death of a deadline task returns its
  bandwidth. `init_dl_bw` starts a domain with no bandwidth allocated. There are at most 2^22 tasks.
- `rt_mutex_getprio` gives the smaller of the task's normal priority and its top waiter's;
  `rt_mutex_check_prio` says that a task has a top waiter at least as urgent as the new priority;
  `rt_mutex_adjust_pi` (called at line 3664) and the return of a deferred change (lines 3635-3639) leave
  the task's own effective priority alone until its waiters change.
- `cpumask_of_node` holds the online CPUs of a node. Child domains partition the span of their parent and
  hold their own CPU; group masks start empty. A chain is given to `cpu_attach_domain` as
  `build_sched_domains` leaves it: non-empty nested spans, one group per CPU in the base and per child's span
  above it. `nr_running` of a dying CPU counts its stop task and the tasks its classes can pick.
- Sources of clock readings stay below 2^63 ns.

Where code and comment differ, the code is followed: `sched_init_numa` assumes that node 0 is
representative; the next section says what follows when it is not.

## Results that are false of the code

Each comes with a concrete input or run and with the exact condition.

- Deadline bandwidth is not conserved when a boosted task that left the policy comes back with the same
  bandwidth (the shortcut at line 2086), when `normalize_task` meets a task of the policy at its deadline
  priority, and when a task that was normalized while a deadline task waited for it, and then entered the
  policy, leaves it or dies
  (`DlBandwidth.BoostedReturnLeaks`, `NormalizeLeaks`, `NormalizedTaskLeaks`). `DlBandwidth.StepConserves`
  says that a step conserves if and only if it is none of these.
- A ratio is the true quotient if and only if the runtime is below 2^44 (`Bandwidth.RatioIsExactIff`).
  Below it all three admissions hold in true quotients too (`RtGroups.TrueQuotientsFit`,
  `CfsQuota.TrueLimitsNested`, `DlBandwidth.TrueQuotientsFit`); one accepted value beyond it breaks each of
  them (`WrapIsReachable` of the three modules).
- A debug run of `sched_init_numa` finds the same levels if and only if no row has an entry above the
  largest of row 0 (`NumaTopology.DebugAgreesIff`), and overruns its array if and only if the records of the
  table outnumber the nodes (`DebugOverrunIff`, `DebugOverrun`).
- A boosted task does not always run at the priority it inherits: a renice, a change of parameters and
  normalizing lose it under the conditions of `SchedParams.ReniceKeepsBoostIff`, `SetKeepsBoostIff` and
  `NormalizeKeepsBoostIff` (`FairBoostLost`, `DeadlineStays`, `NormalizedBoostLost`); all other steps keep it
  (`StepKeepsBoostsIff`, `BoostsAreKept`).

## Model

| member | source | states |
|---|---|---|
| `RunQueueProtocol.ReachableInv` | assg4/core.c:322-362 | the joint invariant of locks, tasks, threads and CPUs holds in every state of every run, for any number of CPUs, tasks and threads |
| `RunQueueProtocol.InitExists` | assg4/core.c:344-362 | there is an initial state with two CPUs, three tasks and any number of threads, so the runs the other rows speak of exist |
| `RunQueueProtocol.RecheckIsSound` | assg4/core.c:344-362 | once the lock function has returned, the caller holds the pi_lock of the task and the lock of the rq the task really belongs to, and the task is not mid-migration, whatever migrations ran meanwhile |
| `RunQueueProtocol.LockedTaskStaysPut` | assg4/core.c:322-362 | from that return to the unlock, the task's CPU, its on_rq and its membership in every queue are fixed over all interleaved steps |
| `RunQueueProtocol.SinglePlacement` | assg4/core.c:1544-1581 | in every reachable state a task is in exactly one of: queued, mid-migration, held by a waker, on a wake_list, asleep |
| `RunQueueProtocol.QueuedOnce` | assg4/core.c:1488-1496 | a task is in the queue of a CPU exactly once if it is queued there and not at all otherwise: no run enqueues it twice |
| `RunQueueProtocol.SoleOwner` | assg4/core.c:4695-4715 | at most one thread moves, wakes or drains a given task |
| `RunQueueProtocol.ListedOnce` | assg4/core.c:1621-1631 | a task is on at most one wake_list, once, and that of its own CPU |
| `RunQueueProtocol.PlacedOffCpu` | assg4/core.c:1690-1747 | when a waker chooses a CPU, no CPU is running the task or still switching away from it |
| `RunQueueProtocol.LoadIsConserved` | assg4/core.c:864-878 | nr_uninterruptible summed over all CPUs is the number of dequeued load-contributing sleepers and of wakers in flight with the contribution still to be taken back, although single CPUs may go negative |
| `RunQueueProtocol.NoStrandedWakeup` | assg4/core.c:1562-1640 | a non-empty wake_list has an adder that has not kicked yet, a pending IPI, a polling idle CPU told to reschedule, or a drain about to run |
| `RunQueueProtocol.RemoteWakeupsBalance` | assg4/core.c:1562-1581 | every remote wakeup is activated by a drain once: activations never exceed or fall short of additions except for the one entry still listed |
| `RunQueueProtocol.QuietMeansDelivered` | assg4/core.c:1583-1640 | when all threads are done and no flag is pending, every remote wakeup has been activated and every task is queued or asleep |
| `RunQueueProtocol.WakeupTakesEffect` | assg4/core.c:1690-1750 | over every run, between the moment a waker has found the task in a state to be woken and the end of the wakeup, the task is at some point TASK_RUNNING on a queue or on a wake_list: no wakeup is lost |
| `RunQueueProtocol.StateIsTested` | assg4/core.c:1703-1705 | a wakeup goes on if and only if the task's state is one of those asked for |
| `RunQueueProtocol.WakerAims` | assg4/core.c:1710-1719 | a task with on_rq set is looked for on its own CPU's rq, a task without is waited for until it is off its CPU |
| `RunQueueProtocol.WokenIsRunnable` | assg4/core.c:1544-1560 | a wakeup that finds the task queued, or has activated it, ends with the task TASK_RUNNING in the queue of that rq |
| `RunQueueProtocol.DrainTakesAll` | assg4/core.c:1562-1570 | a drain takes the whole list and leaves it empty; for an empty one there is nothing to do |
| `RunQueueProtocol.DrainsInOrder` | assg4/core.c:1574-1578 | it activates the tasks one at a time from the head of the list, and ends when none is left |
| `RunQueueProtocol.DrainedIsRunnable` | assg4/core.c:1562-1581 | so does a drain, for each task it is done with |
| `RunQueueProtocol.LocallyWokenIsRunnable` | assg4/core.c:1755-1781 | so does the local wakeup of a sleeping worker |
| `RunQueueProtocol.KickReaches` | assg4/core.c:1621-1631 | the first to add to a wake_list tells a polling idle CPU to reschedule and sends any other an interrupt |
| `RunQueueProtocol.RecheckDecides` | assg4/core.c:344-362 | the lock is kept if and only if the task is settled on the rq that was locked; otherwise it is dropped and taken again |
| `RunQueueProtocol.MoveArrives` | assg4/core.c:4695-4715 | a move ends with the task in the destination's queue, in the state it was in |
| `RunQueueProtocol.MoveIsUnderWay` | assg4/core.c:4695-4715 | during a move the task is in no queue, and its CPU is the source until it is set to the destination |
| `RunQueueProtocol.SwapDecides` | assg4/core.c:1126-1148 | two tasks are swapped if and only if both are where they were thought to be and each may run where the other is |
| `RunQueueProtocol.SwapArrives` | assg4/core.c:1099-1122 | each turn of a swap brings a queued task to the other CPU's queue and changes nothing else about any task; one that is not queued stays |
| `RunQueueProtocol.PrevOutcome` | assg4/core.c:2826-2847 | under its lock `__schedule` leaves the current task queued as it is, or makes it TASK_RUNNING for a signal, or takes it off its queue to sleep |
| `RunQueueProtocol.PickSwitches` | assg4/core.c:2852-2862 | what is picked is in the queue and running on the CPU; a switch from the previous task follows unless it is the same |
| `RunQueueProtocol.SwitchCompletes` | assg4/core.c:2856-2862 | after the switch the previous task is off the CPU |
| `RunQueueProtocol.NobodyIsStuck` | assg4/core.c:322-362 | in every reachable state a thread at work can take a step unless it waits for a rq lock that is held or for a task that is still on a CPU |
| `TaskGroupTree.WalkTgTreeFrom` | assg4/core.c:795-824 | the goto walk returns, and leaves the visitor's state, as making the calls of the recursive pre- and post-order visit in order would, from any group |
| `TaskGroupTree.StopsAtFirstFailure` | assg4/core.c:803-821 | the calls before the last one made return 0; the walk's result is the first non-zero one, and no later call is made |
| `TaskGroupTree.EachGroupOnce` | assg4/core.c:788-824 | a walk from a group enters and leaves every group of its subtree once, and no other |
| `TaskGroupTree.EnteredAt` | assg4/core.c:788-824 | the walk of the whole tree enters every group |
| `TaskGroupTree.SubtreeInOnePiece` | assg4/core.c:795-824 | the calls for a subtree come in one piece between the two calls of every group above it |
| `TaskGroupTree.SiblingsInOrder` | assg4/core.c:795-824 | siblings are visited in the order of their parent's list, between the parent's two calls |
| `TaskGroupTree.RemovedIsValid` | assg4/core.c:7422-7437 | taking a childless group out of its parent's list leaves a well-formed tree |
| `Bandwidth.RatioIsExactIff` | assg4/core.c:2001-2015 | the 64-bit shift and division give the true ratio exactly when the runtime is below 2^44 |
| `Bandwidth.RatioAtMostOne` | assg4/core.c:2001-2015 | a runtime within its period never has a ratio above one, wrapped or not |
| `Bandwidth.WrappedRatioVanishes` | assg4/core.c:2014 | a concrete runtime of a whole CPU whose ratio is computed as 0 |
| `Bandwidth.UsReadsBack` | assg4/core.c:8038-8062 | no number of microseconds becomes the no-limit mark, and exactly those whose nanoseconds fit read back unchanged |
| `Bandwidth.GlobalRatioIs` | assg4/core.c:7703-7707 | the global ratio is the true quotient of the two values written, for every period but 0: nothing wraps |
| `Bandwidth.GlobalValidIff` | assg4/core.c:7767-7777 | a write is valid if and only if its period is not 0 and its runtime is -1 or, read as unsigned, at most the period |
| `RtGroups.TgRtSchedulable` | assg4/core.c:7510-7564 | the loop over the children computes the check of one group, errors in the same order |
| `RtGroups.RtSchedulable` | assg4/core.c:7566-7581 | the walk returns 0 if and only if every group of the tree passes its check |
| `RtGroups.SchedulableIff` | assg4/core.c:7510-7581 | a proposal is accepted if and only if the hierarchy it leads to fits, in unwrapped sums, and leaves no group without runtime while it holds real-time tasks and limits are enabled |
| `RtGroups.RtCheckIs` | assg4/core.c:7510-7564 | a group is refused with EBUSY exactly when it would starve its real-time tasks, and with EINVAL exactly when it would not but breaks one of the three bounds |
| `RtGroups.CheckMeans` | assg4/core.c:7510-7564 | an accepted walk promises for each group, in true sums free of wrap-around, that the children fit in it and it fits the global limit |
| `RtGroups.CommitFits` | assg4/core.c:7583-7611 | after an accepted change the whole hierarchy fits, not only the changed group |
| `RtGroups.CommitIs` | assg4/core.c:7595-7606 | an accepted change sets period and runtime of that group and of no other |
| `RtGroups.CreateIs` | assg4/core.c:7372-7406 | a new group comes first among its siblings with the default period and no runtime; nothing else changes |
| `RtGroups.HandlerIs` | assg4/core.c:7785-7823 | a sysctl write is accepted if and only if it is valid, the groups fit under it, and no real-time or deadline task suffers; then the sysctls and the default period change, otherwise nothing |
| `RtGroups.CreateFits` | assg4/core.c:7372-7405 | creating a group keeps the hierarchy fitting |
| `RtGroups.RemoveFits` | assg4/core.c:7422-7437 | removing a group keeps the hierarchy fitting |
| `RtGroups.HandlerFits` | assg4/core.c:7785-7823 | a sysctl write, accepted or undone, keeps the hierarchy fitting |
| `RtGroups.HierarchyAlwaysFits` | assg4/core.c:7510-7611 | after any run of sets, creations, removals and sysctl writes, accepted or rejected, every group has runtime within period, ratio within the global one, and children summing to at most its own |
| `RtGroups.AntichainAtMostRoot` | assg4/core.c:7510-7564 | in every reachable state any set of groups, none above another, takes together at most the root's ratio |
| `RtGroups.TrueQuotientsFit` | assg4/core.c:7510-7564 | in every reachable state whose finite runtimes are below 2^44 the children's true quotients sum to at most the group's, and each is within the global one |
| `RtGroups.WrapIsReachable` | assg4/core.c:7613-7648 | a run in which the two controls accept first a period and then a runtime of 2^41 us, after which a group truly has more than the root above it |
| `RtGroups.RtControl.SetBandwidth` | assg4/core.c:7583-7599 | the group's parameters change if and only if the proposed hierarchy passes |
| `RtGroups.RtControl.Handler` | assg4/core.c:7767-7823 | for all 32-bit values of both sysctls: they are as before unless the unsigned validation and both constraint checks pass, and then new groups get the new period |
| `RtGroups.RuntimeReadsBack` | assg4/core.c:7613-7635 | an accepted runtime reads back as written unless its nanoseconds wrap; a negative one as -1 |
| `CfsQuota.WalkDecidesNesting` | assg4/core.c:8137-8184 | whatever the caches held, the walk accepts if and only if in the state after the change no group's limit exceeds that of any group above it, and then every cache holds the smallest limit on the path to the root |
| `CfsQuota.PairwiseIsNested` | assg4/core.c:8137-8163 | comparing each group with the nearest limit above it decides all ancestor pairs |
| `CfsQuota.ProposalIsWhatIsReadBack` | assg4/core.c:8117-8135 | the proposed view in microseconds of every group is what its getters return once the change is made |
| `CfsQuota.CfsSchedulable` | assg4/core.c:8165-8184 | the method that scales the proposal and walks the tree returns 0 exactly for a nested result |
| `CfsQuota.SetCfsAccepts` | assg4/core.c:7963-7990 | a change is accepted if and only if it is not for the root, its limits are in range, and the result is nested |
| `CfsQuota.SetCfsIsCarriedOut` | assg4/core.c:7963-8003 | an accepted call sets period and quota of its group, a refused one those of none; the caches are as the walk leaves them, accepted or not |
| `CfsQuota.CreateIs` | assg4/core.c:7372-7406 | a new group comes first among its siblings with a period of 100 ms and no quota; nothing else changes |
| `CfsQuota.AcceptedCachesAreMinima` | assg4/core.c:8137-8163 | after an accepted change hierarchical_quota of every group is the smallest limit on its path |
| `CfsQuota.QuotasStayNested` | assg4/core.c:7963-8036 | after any run of changes, creations and removals no group may use more than any group above it |
| `CfsQuota.TrueLimitsNested` | assg4/core.c:8117-8163 | in every reachable state whose quotas are below 2^44 us the true quotients are nested |
| `CfsQuota.WrapIsReachable` | assg4/core.c:8134 | a run in which one accepted quota of 2^44 us, with the default period, truly exceeds the limit of the group above it |
| `CfsQuota.CfsControl.SetBandwidth` | assg4/core.c:7963-7998 | the guards, the walk and the commit in place give the state of the specification, caches of a rejected walk included |
| `CfsQuota.QuotaReadsBack` | assg4/core.c:8038-8082 | an accepted quota reads back as written if and only if its nanoseconds do not wrap |
| `CfsQuota.PeriodReadsBack` | assg4/core.c:8064-8082 | an accepted period reads back as it was written |
| `DlBandwidth.AdmittedTotal` | assg4/core.c:2076-2112 | an admitted request moves total_bw by exactly the change in the task's share, free of wrap-around, and fits the active CPUs |
| `DlBandwidth.AdmittedIff` | assg4/core.c:2062-2112 | when a request is granted, in plain numbers: leaving always, unless a boosted task has left already; entering and changing if it fits |
| `DlBandwidth.SetRefusedIff` | assg4/core.c:3392-3622 | each error of a change of policy by a condition on its arguments in plain numbers; a refused one changes nothing |
| `DlBandwidth.SetIsCarriedOut` | assg4/core.c:3303-3347 | an accepted change leaves the policy and the deadline parameters asked for, and the class at once unless a waiter defers it; no other task changes |
| `DlBandwidth.TaskOpsAre` | assg4/core.c:7249-7303 | what boosting, normalizing and dying do to the task, to the total and to nothing else |
| `DlBandwidth.CpuOpsAre` | assg4/core.c:5292-5340 | what taking a CPU down, undoing that and bringing one up do |
| `DlBandwidth.LimitsAreCarriedOut` | assg4/core.c:7703-7765 | a write is accepted if and only if it is valid and its true quotient covers what the deadline tasks hold; then the limit is that quotient, or none for a negative runtime; a refused write changes nothing |
| `DlBandwidth.StepConserves` | assg4/core.c:2076-2112 | a step keeps total_bw equal to the bandwidth of the deadline tasks if and only if it is not one of the leaking ones, and then also keeps it within the CPUs; boosting, dying and normalizing at any time are steps |
| `DlBandwidth.TrueQuotientsFit` | assg4/core.c:2062-2112 | over every run without a leaking step, as long as the runtimes are below 2^44 ns, the true quotients of the deadline tasks sum to at most bw times the active CPUs |
| `DlBandwidth.WrapIsReachable` | assg4/core.c:2083 | a run in which a task asking for 2^44 ns in each 2^44 ns, a whole CPU, is admitted with total_bw left at 0 beside a limit of 95 % |
| `DlBandwidth.BandwidthIsConserved` | assg4/core.c:2049-2112 | over every run without a leaking step, boosting included, total_bw is what the deadline tasks hold and at most bw times the active CPUs |
| `DlBandwidth.UnboostedBandwidthIsConserved` | assg4/core.c:3613-3621 | over every run in which no task is boosted or normalized, the same holds with no condition on the steps |
| `DlBandwidth.UnboostedNeverLeaks` | assg4/core.c:2086-2087 | the equality shortcut is harmless for an unboosted task |
| `DlBandwidth.BoostedReturnLeaks` | assg4/core.c:3635-3639 | a run after which a deadline task holds a whole CPU and total_bw is 0 |
| `DlBandwidth.NormalizeLeaks` | assg4/core.c:7249-7268 | a run after which no deadline task is left and total_bw is not 0 |
| `DlBandwidth.NormalizedTaskLeaks` | assg4/core.c:3617-3621 | a run in which a task outside the deadline class leaves the policy without being accounted for |
| `DlBandwidth.DownIff` | assg4/core.c:5307-5340 | taking a CPU down is refused if and only if the remaining active ones cannot hold what is allocated |
| `DlBandwidth.RootDomain.Request` | assg4/core.c:2050-2112 | the three branches of admission, updating total_bw in place, compute the specified error and total |
| `DlBandwidth.RootDomain.SetSched` | assg4/core.c:3613-3660 | the change of policy in place, its errors, and what stays when it is refused |
| `DlBandwidth.RootDomain.Dead` | assg4/core.c:2280-2283 | a dying deadline task returns its bandwidth |
| `DlBandwidth.RootDomain.TryDown` | assg4/core.c:5292-5340 | a refused attempt leaves the CPU active; an accepted one leaves enough capacity |
| `DlBandwidth.RootDomain.SetGlobal` | assg4/core.c:7703-7765 | for all 32-bit values of both sysctls: the limit changes exactly when the write is valid and not below what is already allocated |
| `NumaTopology.FoundIs` | assg4/core.c:6326-6389 | without debugging the levels found are strictly increasing, are exactly the distances from node 0 above its local one, and are fewer than the nodes, so the array is never overrun |
| `NumaTopology.DebugAgreesIff` | assg4/core.c:6337-6377 | the debug run finds the same levels if and only if no row has an entry above the largest of row 0 |
| `NumaTopology.DebugAgrees` | assg4/core.c:6337-6344 | in particular when node 0 is representative, as the source assumes |
| `NumaTopology.DebugOverrunIff` | assg4/core.c:6344-6383 | a debug run stores one distance per record of the table, a record being an entry above the local distance in the first row that is not wholly below it; so the array is overrun exactly when the records outnumber the nodes |
| `NumaTopology.DebugOverrun` | assg4/core.c:6344-6383 | a table with equal local distances on which this happens |
| `NumaTopology.Topology.FindDistances` | assg4/core.c:6344-6377 | the nested selection loops fill the array with exactly those levels, with or without debugging, or store past its end exactly when there are more than it holds |
| `NumaTopology.Topology.SelectRow` | assg4/core.c:6345-6370 | the loop over one row appends its distinct larger distances in increasing order, or runs past the end exactly when they do not fit |
| `NumaTopology.Topology.SchedInitNuma` | assg4/core.c:6326-6461 | unless the array is overrun every mask is the one computed from scratch, and the topology table grows by one entry per level |
| `NumaTopology.CacheIsRecomputation` | assg4/core.c:6464-6510 | after any sequence of online and dead events the cached mask is the from-scratch one for the CPUs online then |
| `NumaTopology.MaskHolds` | assg4/core.c:6415-6428 | a CPU is in the mask of a node at a level if and only if it is online and its node is within that distance of the node |
| `NumaTopology.NumaLevelsAre` | assg4/core.c:6433-6461 | the entries appended to the topology table are the levels in order, one each |
| `NumaTopology.Topology.Update` | assg4/core.c:6464-6510 | the notifier's loops bring every mask of every level up to date |
| `NumaTopology.MasksAreNested` | assg4/core.c:6415-6428 | at every node a wider level contains the narrower ones |
| `NumaTopology.TopLevelSpansAll` | assg4/core.c:6415-6428 | with node 0 representative the widest level of every node spans all online CPUs |
| `DomainChain.CollapseLeavesNoPair` | assg4/core.c:5759-5783 | after the pass no domain is degenerate with respect to the one below it, although flags were added to domains already compared |
| `DomainChain.GrowingParentStays` | assg4/core.c:5525-5552 | gaining SD_PREFER_SIBLING never makes a parent removable |
| `DomainChain.NothingDegenerateAttached` | assg4/core.c:5759-5793 | the chain attached contains no degenerate domain at all, the base included |
| `DomainChain.CollapseIsStable` | assg4/core.c:5759-5783 | a pass over its own result changes nothing |
| `DomainChain.TransfersStayInSpan` | assg4/core.c:5770-5776 | in a chain as it is built every domain the pass removes has the span of the one that takes its SD_PREFER_SIBLING, as the comment promises |
| `DomainChain.CollapseKeepsSpans` | assg4/core.c:5759-5783 | the pass keeps the set of spans of such a chain, and the set of those that prefer siblings |
| `DomainChain.AttachedSpans` | assg4/core.c:5752-5793 | what is attached has a domain for exactly those spans of the chain that hold several CPUs, and a span prefers siblings there if and only if one of its domains did |
| `DomainChain.BuiltFlags` | assg4/core.c:6196-6250 | whatever the level, its distance and the relaxation attribute ask for, a built domain has SD_LOAD_BALANCE |
| `DomainChain.BuiltFlagsAre` | assg4/core.c:6196-6250 | for every flag, when a domain is built with it |
| `DomainChain.MisdescribedFlagsAre` | assg4/core.c:6177-6181 | the same for a level that asks for flags it may not ask for: it gets none of those that it may |
| `DomainChain.RemovedIffSuperfluous` | assg4/core.c:5497-5552 | a parent is removed if and only if it spans the same and is of no use of its own, or has no flag that counts for its groups and nodes beyond those of the domain below |
| `DomainChain.RemovalsAreSuperfluous` | assg4/core.c:5759-5783 | the pass removes nothing else: a domain with a flag that counts is kept |
| `DomainChain.NothingSuperfluousAttached` | assg4/core.c:5752-5793 | of two adjacent attached domains of the same span the upper one has a flag that counts and the lower lacks, and each attached domain has several CPUs and is of use |
| `DomainChain.OrdinaryLevelsGrow` | assg4/core.c:5752-5793 | of levels of a single node, with one group where they span the same, one is attached for each span: the spans attached grow strictly |
| `DomainChain.CpuAttachDomain` | assg4/core.c:5752-5800 | the run queue gets a consistent doubly linked chain, an in-order subsequence of the new one with the specified flags; each other new domain and the whole old chain is destroyed once |
| `DomainChain.RemoveDegenerates` | assg4/core.c:5759-5783 | the splicing loop terminates, keeps parent and child links consistent, and leaves the collapsed chain |
| `DomainChain.DestroySchedDomains` | assg4/core.c:5707-5711 | walking the parent links destroys the chain from its base to its top |
| `SchedGroups.GroupsPartitionSpan` | assg4/core.c:5969-6015 | the group masks are non-empty, pairwise disjoint and cover exactly the span, each CPU in the group it looks up |
| `SchedGroups.SingleCycle` | assg4/core.c:6004-6013 | from any group the links reach every group and come back after exactly as many steps as there are groups, not earlier |
| `SchedGroups.SameGroup` | assg4/core.c:5944-5959 | two CPUs look up the same group if and only if one is in the other's child domain |
| `SchedGroups.SdData.BuildSchedGroups` | assg4/core.c:5969-6015 | the first CPU of the span builds the ring, every other one only finds its group, and nothing outside the span changes |
| `SchedGroups.SdData.BuildAll` | assg4/core.c:6678-6689 | after all CPUs of a domain, each sd->groups is the ring member that contains the CPU |
| `SchedGroups.SdData.InitCapacity` | assg4/core.c:6027-6036 | the do-while loop ends, and has given every group of the ring, and nothing else, its weight |
| `Partition.Domains.PartitionSchedDomains` | assg4/core.c:6838-6899 | every CPU of a requested mask ends attached to a domain of that mask and its attributes, every other one detached; a domain in both partitions is untouched unless the topology changed or no masks were passed, any other is built anew |
| `Partition.Reached` | assg4/core.c:6856-6889 | destroying what is not wanted and then building what is not there leads to the requested partition |
| `Partition.KeptCpu` | assg4/core.c:6858-6862 | neither loop touches a CPU whose domain is in both partitions |
| `Partition.TargetIs` | assg4/core.c:6867-6873 | a request without masks asks for exactly the active CPUs that are not isolated, in one domain, or for none |
| `Partition.IsolatedStayDetached` | assg4/core.c:6867-6889 | once such a request is met a CPU is attached if and only if it is active and not isolated |
| `Partition.Domains.DestroyDeleted` | assg4/core.c:6856-6868 | the first loop detaches exactly the CPUs of the current domains that have no match |
| `Partition.Domains.BuildNew` | assg4/core.c:6878-6889 | the second loop builds exactly the requested domains that have no match |
| `CpuDrain.Machine.SelectFallbackRq` | assg4/core.c:1346-1414 | the CPU returned is usable and in the mask the task is left with; it is the first one of the node if there is one; the mask is widened to the cpuset or to all possible CPUs only as far as needed, at most twice |
| `CpuDrain.Machine.SearchWidening` | assg4/core.c:1371-1400 | with a possible, online and active CPU the search ends after at most two widenings and never reaches the BUG() |
| `CpuDrain.FallbackIs` | assg4/core.c:1346-1414 | the CPU chosen is the first usable one the task may use in the old CPU's node, else in its mask, else in its cpuset, else of all possible CPUs; the mask and the number of widenings follow |
| `CpuDrain.Machine.MoveQueuedTask` | assg4/core.c:4695-4715 | a move takes the task from one queue to the other, keeps the counters, and conserves the set of queued tasks |
| `CpuDrain.Machine.MigrateTask` | assg4/core.c:4800-4832 | when a migration succeeds, and that it moves the task or nothing |
| `CpuDrain.Machine.MigrateTasks` | assg4/core.c:4964-5010 | the drain ends, with nr_running as its measure, with only the stop task left; the set of queued tasks is conserved; every former task is queued on a usable CPU that its mask, widened only if needed, allows; all other tasks are untouched |
| `SchedParams.ClassPriorityQueueAgree` | assg4/core.c:967-1010 | over every run of fork, renice, set-scheduler, waiter, normalize, activate and deactivate steps a task's class is that of its priority, normal_prio follows its formula, an unboosted task runs at it, and a queued task is in its own class's queue and in no other |
| `SchedParams.DeferredChangeIsTheSame` | assg4/core.c:3624-3639 | storing the parameters of a boosted task and applying them when the boost ends has the same result as making the change then |
| `SchedParams.ReniceKeepsBoostIff` | assg4/core.c:999-1010 | renicing keeps the inherited priority except for a boost that stays within the fair range |
| `SchedParams.SetKeepsBoostIff` | assg4/core.c:3624-3660 | a change of parameters keeps the inherited priority unless it is deferred and the task was more urgent on its own than its waiter, or not deferred and the waiter is in the fair range and more urgent than the new nice value |
| `SchedParams.NormalizeKeepsBoostIff` | assg4/core.c:7249-7303 | exactly when normalizing keeps the inherited priority |
| `SchedParams.StepKeepsBoostsIff` | assg4/core.c:999-1010 | a step keeps every task at its inherited priority if and only if it is none of the three losing kinds |
| `SchedParams.BoostsAreKept` | assg4/core.c:3057-3136 | over every run without a losing step each task runs at the more urgent of its own and its top waiter's priority |
| `SchedParams.DeadlineStays` | assg4/core.c:3635-3639 | a deadline task with a real-time waiter that becomes an ordinary one stays in the deadline class |
| `SchedParams.FairBoostLost` | assg4/core.c:3166-3168 | a boost within the fair range that a renice and a change of parameters lose |
| `SchedParams.SetWaiterAgrees` | assg4/core.c:3057-3136 | after a change of waiters the priority is the smaller of the normal one and the top waiter's |
| `SchedParams.ForkAgrees` | assg4/core.c:1922-1975 | a child starts at its own normal priority, free of the parent's boost, and is refused exactly for a deadline parent without reset-on-fork |
| `SchedParams.NormalizeAgrees` | assg4/core.c:7249-7303 | normalizing a real-time or deadline task makes it an ordinary task at nice 0, on the right queue |
| `SchedParams.SetRefusedIff` | assg4/core.c:3438-3622 | each error of a change of parameters by a condition on its arguments; a refused call changes nothing |
| `SchedParams.SetIsCarriedOut` | assg4/core.c:3323-3347 | an accepted call leaves the policy asked for, rt_priority, the nice value of a fair policy and the reset flag as asked, and nothing else changed; if the task has all of it already only the flag is touched |
| `SchedParams.SetMovesOrWaits` | assg4/core.c:3624-3660 | the task runs at its new priority and in its class at once, unless a waiter at least as urgent keeps it where it is |
| `SchedParams.ReniceIsCarriedOut` | assg4/core.c:3139-3183 | a renice stores the nice value for every policy, and moves only a fair task at a fair priority |
| `SchedParams.SetWaiterIsCarriedOut` | assg4/core.c:3057-3136 | the priority after a change of waiters is the more urgent of the two, in plain numbers, and nothing else of the task changes |
| `SchedParams.ForkIsCarriedOut` | assg4/core.c:1922-1975 | what a child inherits, with and without the reset flag: with it neither a real-time policy nor a negative nice value |
| `SchedParams.NormalizeIsCarriedOut` | assg4/core.c:7249-7303 | what normalizing changes and what it keeps |
| `SchedParams.TaskStruct.SetSched` | assg4/core.c:3438-3665 | the checks in their order, the special case of a boosted task, and dequeue, change, enqueue in place |
| `SchedParams.TaskStruct.Renice` | assg4/core.c:3139-3183 | the three ways of renicing, in place, as the rows above state them |
| `SchedParams.TaskStruct.SetPrio` | assg4/core.c:3057-3133 | a change of effective priority moves a queued task from its old class's queue to its new one's |
| `SchedParams.TaskStruct.NormalizeRt` | assg4/core.c:7249-7303 | normalization in place |
| `RqClock.UpdateConserves` | assg4/core.c:130-142 | every update distributes the increase of clock over clock_task, irq and steal stamps without rest, and neither clock nor clock_task goes back, even if the irq or steal clock does |
| `RqClock.UpdateIs` | assg4/core.c:880-932 | what an update does in plain numbers: no 64-bit operation wraps |
| `RqClock.UpdateDistributes` | assg4/core.c:880-932 | the irq stamp, if accounted, comes as close to its clock as the increase allows, then the steal stamp as what is left does, and the rest is task time |
| `RqClock.ExcessIsDeferred` | assg4/core.c:890-926 | a stamp never passes its clock; a stamp that lags has taken all it could, so the excess is deferred |
| `RqClock.TimeIsAccountedOnce` | assg4/core.c:130-142 | in every state of every run clock is the sum of task, irq and steal time |
| `RqClock.ClocksAreMonotone` | assg4/core.c:130-142 | all four clocks are monotone over every run |
| `RqClock.NothingIsLost` | assg4/core.c:893-906 | between two caught-up states tasks were given exactly the time that was neither irq nor stolen, however often updates in between were clamped |
| `RqClock.RunQueue.UpdateRqClock` | assg4/core.c:130-142 | the update in place, skipped and backward cases included |
| `RqClock.RunQueue.UpdateRqClockTask` | assg4/core.c:880-924 | the two clamped subtractions in place |

## Left out

- The root-level modules (`fifo`, `kfifo`, `intfifo`, `char`, `ttt`, `ex6` to `ex9`, `rss`, `wss`) and `assg4/assg4.c`: wrappers around kernel code that is not shown, counters and printing, easy members only.
- Class internals (CFS tree, real-time and deadline queues, load balancing): not in the file; a class is a set of queued tasks with a pick.
- Weak memory: all steps are sequentially consistent, barriers are no-ops.
- Task exit (TASK_DEAD), `wake_up_new_task`, load-balancer moves and changes of affinity are not steps of the protocol.
- The sysctl handler is one step: the code drops the locks between its checks and its writes, and a concurrent change in between is not modelled.
- Suspend (frozen) hotplug and moving CPUs between root domains, for the deadline bound.
- DlBandwidth.RootDomain.SetSched: the checks before admission (ranges, permissions, cpuset span) are one verdict passed in; `SchedParams.TaskStruct.SetSched` models the range checks.
- RtGroups.RtControl.SetBandwidth: the copies of the runtime in the per-CPU rt_rq are not modelled.
- CfsQuota.CfsControl.SetBandwidth: refilling, the period timer and unthrottling after an accepted quota are not modelled.
- DomainChain.CpuAttachDomain: `rq_attach_root` and `update_top_cache_domain` are not modelled, only the chain of the run queue.
- SchedParams.TaskStruct.SetSched: `put_prev_task` and `set_curr_task` of a running task, and the restart when the policy changes under it, are not modelled.
- SchedParams.TaskStruct.SetPrio: `dl_boosted`, `dl_throttled` and the enqueue flags belong to the deadline class and are not modelled.
- NumaTopology.Topology.SchedInitNuma: the model stops at a store past the end of the array and does not say what memory it hits.
- Allocation failures in domain building, overlapping (NUMA) groups, reference counts of groups, and failed builds in `partition_sched_domains`.
- RCU reclamation, tracing, perf, lockdep, debugfs, printk, permission and security checks, context switching, hrtick, nohz, schedstats.
