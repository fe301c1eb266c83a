/** Emptying the run queue of a dying CPU (assg4/core.c, migrate_tasks and select_fallback_rq). */
module CpuDrain {
  import opened Basics

  /** cpumask_first */
  function Lowest(s: set<nat>): (r: nat)
    requires s != {}
    ensures r in s && forall x :: x in s ==> r <= x
  {
    LowestExists(s);
    var r: nat :| r in s && forall x :: x in s ==> r <= x;
    r
  }

  lemma {:induction false} LowestExists(s: set<nat>)
    requires s != {}
    ensures exists r: nat :: r in s && forall x :: x in s ==> r <= x
  {
    var a: nat :| a in s;
    var rest := s - {a};
    assert s == rest + {a};
    if rest == {} {
      assert forall x :: x in s ==> a <= x;
    } else {
      LowestExists(rest);
      var b: nat :| b in rest && forall x :: x in rest ==> b <= x;
      var r := if a <= b then a else b;
      forall x | x in s ensures r <= x {
        if x != a { assert x in rest; }
      }
      assert r in s;
    }
  }

  /** The mask a task is left with: its own, else its cpuset's, else every possible CPU. */
  function WidenedMask(allowed: set<nat>, cpuset: set<nat>, possible: set<nat>, usable: set<nat>): set<nat> {
    if allowed * usable != {} then allowed
    else if cpuset * usable != {} then cpuset
    else possible
  }

  /** The CPU chosen: in the node of the old one if the task may run there, else the first it may run on. */
  function FallbackCpu(
      node: Option<set<nat>>, allowed: set<nat>, cpuset: set<nat>, possible: set<nat>, usable: set<nat>): nat
    requires possible * usable != {}
  {
    if node.Some? && node.value * allowed * usable != {} then Lowest(node.value * allowed * usable)
    else Lowest(WidenedMask(allowed, cpuset, possible, usable) * usable)
  }

  /** c is the first CPU of `mask` that is usable. */
  predicate IsFirst(c: nat, mask: set<nat>, usable: set<nat>) {
    c in mask && c in usable && forall x :: x in mask && x in usable ==> c <= x
  }

  predicate Holds(mask: set<nat>, usable: set<nat>) {
    exists c :: c in mask && c in usable
  }

  /**
    The old CPU's node comes first, if the task may use a CPU of it; then the CPUs of the task's own mask, and
    then, with the mask widened to match, those of its cpuset and all possible ones.
   */
  lemma FallbackIs(
      node: Option<set<nat>>, allowed: set<nat>, cpuset: set<nat>, possible: set<nat>, usable: set<nat>)
    requires possible * usable != {}
    ensures var c := FallbackCpu(node, allowed, cpuset, possible, usable);
      if node.Some? && Holds(node.value * allowed, usable) then IsFirst(c, node.value * allowed, usable)
      else if Holds(allowed, usable) then IsFirst(c, allowed, usable)
      else if Holds(cpuset, usable) then IsFirst(c, cpuset, usable)
      else IsFirst(c, possible, usable)
    ensures WidenedMask(allowed, cpuset, possible, usable) ==
      if Holds(allowed, usable) then allowed else if Holds(cpuset, usable) then cpuset else possible
    ensures Widenings(allowed, cpuset, usable) ==
      if Holds(allowed, usable) then 0 else if Holds(cpuset, usable) then 1 else 2
  {
    FirstIs(allowed, usable);
    FirstIs(cpuset, usable);
    FirstIs(possible, usable);
    if node.Some? { FirstIs(node.value * allowed, usable); }
  }

  lemma FirstIs(mask: set<nat>, usable: set<nat>)
    ensures Holds(mask, usable) <==> mask * usable != {}
    ensures Holds(mask, usable) ==> IsFirst(Lowest(mask * usable), mask, usable)
  {
    if Holds(mask, usable) {
      var c :| c in mask && c in usable;
      assert c in mask * usable;
      forall x | x in mask && x in usable ensures Lowest(mask * usable) <= x { assert x in mask * usable; }
    }
  }

  /** How many times the mask is widened. */
  function Widenings(allowed: set<nat>, cpuset: set<nat>, usable: set<nat>): nat {
    if allowed * usable != {} then 0 else if cpuset * usable != {} then 1 else 2
  }

  /** The queues after p has gone from src to dest. */
  function Moved(q: seq<set<nat>>, p: nat, src: nat, dest: nat): seq<set<nat>>
    requires src < |q| && dest < |q|
  {
    q[src := q[src] - {p}][dest := q[dest] + {p}]
  }

  ghost function QueuedIn(q: seq<set<nat>>, cpuOf: map<nat, nat>): set<nat> {
    set t | t in cpuOf && cpuOf[t] < |q| && t in q[cpuOf[t]]
  }

  datatype Phase = Cpuset | Possible | Fail

  class Machine {
    const n: nat                            // CPU numbers are below n
    const possible: set<nat>
    const cpuset: map<nat, set<nat>>        // what cpuset_cpus_allowed_fallback gives each task
    const nodeMask: map<nat, set<nat>>      // cpumask_of_node(cpu_to_node(cpu)); absent for node -1
    var online: set<nat>
    var active: set<nat>
    var allowed: map<nat, set<nat>>
    var cpuOf: map<nat, nat>
    var queue: seq<set<nat>>                // the tasks queued on each CPU, its stop task apart
    var nrRunning: seq<nat>
    ghost const others: seq<nat>            // what else nr_running counts: the stop task

    predicate Usable(c: nat)
      reads this
    {
      c in online && c in active
    }

    function UsableCpus(): set<nat>
      reads this
    {
      online * active
    }

    ghost predicate Valid()
      reads this
    {
      && |queue| == |nrRunning| == |others| == n
      && (forall c :: c in possible ==> c < n)
      && cpuOf.Keys == allowed.Keys == cpuset.Keys
      && (forall c, t :: 0 <= c < n && t in queue[c] ==> t in cpuOf && cpuOf[t] == c)
      && (forall c :: 0 <= c < n ==> nrRunning[c] == |queue[c]| + others[c])
      && possible * UsableCpus() != {} && online <= possible
    }

    /** Every queued task of the system. */
    ghost function Queued(): set<nat>
      reads this
    {
      QueuedIn(queue, cpuOf)
    }

    constructor (n: nat, possible: set<nat>, cpuset: map<nat, set<nat>>, nodeMask: map<nat, set<nat>>,
                 online: set<nat>, active: set<nat>, allowed: map<nat, set<nat>>, cpuOf: map<nat, nat>,
                 queue: seq<set<nat>>, nrRunning: seq<nat>, ghost others: seq<nat>)
      requires |queue| == |nrRunning| == |others| == n && (forall c :: c in possible ==> c < n)
      requires cpuOf.Keys == allowed.Keys == cpuset.Keys
      requires forall c, t :: 0 <= c < n && t in queue[c] ==> t in cpuOf && cpuOf[t] == c
      requires forall c :: 0 <= c < n ==> nrRunning[c] == |queue[c]| + others[c]
      requires possible * (online * active) != {} && online <= possible
      ensures Valid() && this.n == n && this.online == online && this.active == active && this.possible == possible
      ensures this.allowed == allowed && this.cpuOf == cpuOf && this.queue == queue && this.others == others
    {
      this.n, this.possible, this.cpuset, this.nodeMask := n, possible, cpuset, nodeMask;
      this.online, this.active, this.allowed, this.cpuOf := online, active, allowed, cpuOf;
      this.queue, this.nrRunning, this.others := queue, nrRunning, others;
    }

    /** for_each_cpu over a mask, stopping at the first usable CPU. */
    method FirstUsable(mask: set<nat>) returns (r: Option<nat>)
      requires forall c :: c in online ==> c < n
      ensures r == if mask * UsableCpus() == {} then None else Some(Lowest(mask * UsableCpus()))
    {
      for c := 0 to n
        invariant forall x :: x in mask * UsableCpus() ==> x >= c
      {
        if c in mask && Usable(c) {
          assert c in mask * UsableCpus();
          return Some(c);
        }
      }
      return None;
    }

    /** select_fallback_rq */
    method SelectFallbackRq(cpu: nat, p: nat) returns (dest: nat, ghost widened: nat)
      requires Valid() && p in allowed
      modifies this`allowed
      ensures Valid()
      ensures IsChosen(dest, cpu, old(allowed[p]), cpuset[p], UsableCpus())
      ensures dest in allowed[p] && Usable(dest)
      ensures allowed == old(allowed)[p := WidenedMask(old(allowed[p]), cpuset[p], possible, UsableCpus())]
      ensures widened == Widenings(old(allowed[p]), cpuset[p], UsableCpus()) <= 2
    {
      if cpu in nodeMask {
        var r := FirstUsable(nodeMask[cpu] * allowed[p]);
        if r.Some? {
          assert r.value in allowed[p] * UsableCpus();
          assert allowed == allowed[p := allowed[p]];
          return r.value, 0;
        }
      }
      dest, widened := SearchWidening(p);
    }

    /** do_set_cpus_allowed */
    method SetCpusAllowed(p: nat, mask: set<nat>, ghost allowed0: map<nat, set<nat>>)
      requires Valid() && p in allowed && p in allowed0 && allowed == allowed0[p := allowed[p]]
      modifies this`allowed
      ensures Valid() && allowed == allowed0[p := mask] && UsableCpus() == old(UsableCpus())
    {
      allowed := allowed[p := mask];
    }

    /** The mask after m widenings. */
    ghost function MaskAfter(mask: set<nat>, p: nat, m: nat): set<nat>
      requires p in cpuset
    {
      if m == 0 then mask else if m == 1 then cpuset[p] else possible
    }

    /** The search loop: at most two widenings, and the BUG() is never reached. */
    method SearchWidening(p: nat) returns (dest: nat, ghost widened: nat)
      requires Valid() && p in allowed
      modifies this`allowed
      ensures Valid()
      ensures allowed == old(allowed)[p := WidenedMask(old(allowed[p]), cpuset[p], possible, UsableCpus())]
      ensures allowed[p] * UsableCpus() != {} && dest == Lowest(allowed[p] * UsableCpus())
      ensures widened == Widenings(old(allowed[p]), cpuset[p], UsableCpus())
    {
      widened := 0;
      var phase := Cpuset;
      ghost var mask0, usable := allowed[p], UsableCpus();
      assert allowed == allowed[p := mask0];
      while true
        invariant Valid() && UsableCpus() == usable
        invariant widened <= 2 && phase == if widened == 0 then Cpuset else if widened == 1 then Possible else Fail
        invariant widened <= Widenings(mask0, cpuset[p], usable)
        invariant allowed == old(allowed)[p := allowed[p]] && allowed[p] == MaskAfter(mask0, p, widened)
        decreases 3 - widened
      {
        var r := FirstUsable(allowed[p]);
        if r.Some? { return r.value, widened; }
        if phase == Cpuset {
          SetCpusAllowed(p, cpuset[p], old(allowed));
          phase := Possible;
        } else if phase == Possible {
          SetCpusAllowed(p, possible, old(allowed));
          phase := Fail;
        } else {
          assert false;
        }
        widened := widened + 1;
      }
    }

    /** move_queued_task */
    method MoveQueuedTask(p: nat, dest: nat)
      requires Valid() && p in cpuOf && cpuOf[p] < n && p in queue[cpuOf[p]] && dest < n && dest != cpuOf[p]
      modifies this`cpuOf, this`queue, this`nrRunning
      ensures Valid() && cpuOf == old(cpuOf)[p := dest]
      ensures queue == Moved(old(queue), p, old(cpuOf[p]), dest)
      ensures Queued() == old(Queued())
    {
      var src := cpuOf[p];
      assert p !in queue[dest];
      ghost var goal := Moved(queue, p, src, dest);
      queue := queue[src := queue[src] - {p}];
      nrRunning := nrRunning[src := nrRunning[src] - 1];
      cpuOf := cpuOf[p := dest];
      queue := queue[dest := queue[dest] + {p}];
      nrRunning := nrRunning[dest := nrRunning[dest] + 1];
      assert queue == goal;
      StillQueued(old(queue), old(cpuOf), p, dest);
    }

    lemma StillQueued(q: seq<set<nat>>, at: map<nat, nat>, p: nat, dest: nat)
      requires p in at && at[p] < |q| && p in q[at[p]] && dest < |q| && dest != at[p]
      ensures QueuedIn(Moved(q, p, at[p], dest), at[p := dest]) == QueuedIn(q, at)
    {
    }

    /** __migrate_task: moves the task unless the destination will not do or the task is elsewhere already. */
    method MigrateTask(p: nat, src: nat, dest: nat) returns (ret: bool)
      requires Valid() && p in cpuOf && src < n && dest < n && dest != src
      modifies this`cpuOf, this`queue, this`nrRunning
      ensures Valid() && Queued() == old(Queued())
      ensures ret <==> dest in active && (old(cpuOf[p]) != src || dest in allowed[p])
      ensures cpuOf == if ret && old(cpuOf[p]) == src && p in old(queue[src]) then old(cpuOf)[p := dest] else old(cpuOf)
      ensures queue == if ret && old(cpuOf[p]) == src && p in old(queue[src])
        then Moved(old(queue), p, src, dest) else old(queue)
    {
      if dest !in active { return false; }
      if cpuOf[p] != src { return true; }
      if dest !in allowed[p] { return false; }
      if p in queue[src] { MoveQueuedTask(p, dest); }
      return true;
    }

    /** cpumask_of_node, which there is not for a CPU of node -1 */
    function NodeOf(cpu: nat): Option<set<nat>> {
      if cpu in nodeMask then Some(nodeMask[cpu]) else None
    }

    predicate IsChosen(c: nat, dead: nat, mask: set<nat>, fallback: set<nat>, usable: set<nat>) {
      possible * usable != {} && c == FallbackCpu(NodeOf(dead), mask, fallback, possible, usable)
    }

    /** The task went from the dead CPU to the CPU chosen for it, with its mask widened only as far as needed. */
    ghost predicate Landed(t: nat, dead: nat, allowed0: map<nat, set<nat>>)
      reads this
    {
      && t in cpuOf && t in allowed && t in allowed0 && t in cpuset
      && cpuOf[t] < |queue| && t in queue[cpuOf[t]]
      && Usable(cpuOf[t]) && cpuOf[t] in allowed[t]
      && IsChosen(cpuOf[t], dead, allowed0[t], cpuset[t], UsableCpus())
      && allowed[t] == WidenedMask(allowed0[t], cpuset[t], possible, UsableCpus())
    }

    /** migrate_tasks: the dying CPU is inactive already, and only its stop task is left in the end. */
    method MigrateTasks(dead: nat)
      requires Valid() && dead < n && dead !in active && others[dead] == 1
      modifies this`allowed, this`cpuOf, this`queue, this`nrRunning
      ensures Valid() && queue[dead] == {} && nrRunning[dead] == 1
      ensures Queued() == old(Queued())
      ensures forall t :: t in old(queue[dead]) ==> Landed(t, dead, old(allowed))
      ensures forall t :: t in old(cpuOf) && t !in old(queue[dead]) ==> Stayed(t, old(cpuOf), old(allowed))
    {
      ghost var queue0 := queue[dead];
      while nrRunning[dead] != 1
        invariant Valid() && queue[dead] <= queue0 && Queued() == old(Queued())
        invariant forall t :: t in queue[dead] ==> Stayed(t, old(cpuOf), old(allowed))
        invariant forall t :: t in queue0 && t !in queue[dead] ==> Landed(t, dead, old(allowed))
        invariant forall t :: t in old(cpuOf) && t !in queue0 ==> Stayed(t, old(cpuOf), old(allowed))
        decreases nrRunning[dead]
      {
        ghost var next := MigrateOne(dead, old(cpuOf), old(allowed));
      }
    }

    ghost predicate Stayed(t: nat, cpuOf0: map<nat, nat>, allowed0: map<nat, set<nat>>)
      reads this
    {
      t in cpuOf && t in allowed && t in cpuOf0 && t in allowed0 && cpuOf[t] == cpuOf0[t] && allowed[t] == allowed0[t]
    }

    /** One turn of the loop: whatever task is picked, it leaves for a CPU it may run on. */
    method MigrateOne(dead: nat, ghost cpuOf0: map<nat, nat>, ghost allowed0: map<nat, set<nat>>)
      returns (ghost next: nat)
      requires Valid() && dead < n && dead !in active && others[dead] == 1 && nrRunning[dead] != 1
      requires forall t :: t in queue[dead] ==> Stayed(t, cpuOf0, allowed0)
      modifies this`allowed, this`cpuOf, this`queue, this`nrRunning
      ensures Valid() && Queued() == old(Queued())
      ensures next in old(queue[dead]) && queue[dead] == old(queue[dead]) - {next}
      ensures nrRunning[dead] == old(nrRunning[dead]) - 1 && Landed(next, dead, allowed0)
      ensures forall t :: t != next && old(Stayed(t, cpuOf0, allowed0)) ==> Stayed(t, cpuOf0, allowed0)
      ensures forall t :: t != next && old(Landed(t, dead, allowed0)) ==> Landed(t, dead, allowed0)
    {
      var picked :| picked in queue[dead];
      next := picked;
      var dest, _ := SelectFallbackRq(dead, picked);
      assert dest in possible;
      var moved := MigrateTask(picked, dead, dest);
    }
  }
}
