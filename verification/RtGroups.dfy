/** Admission of real-time bandwidth over the task-group tree (assg4/core.c, CONFIG_RT_GROUP_SCHED). */
module RtGroups {
  import opened Basics
  import opened Bandwidth
  import opened TaskGroupTree

  /** More siblings than this do not fit in memory; the 64-bit sum of their ratios cannot wrap. */
  const MAX_CHILDREN: nat := 0x800_0000_0000

  /** rt_bandwidth of every group (ns), the period new groups get (ns), and the two sysctls (us). */
  datatype RtState = RtState(
    tree: Tree, period: map<nat, nat>, runtime: map<nat, nat>,
    defPeriod: nat, sysPeriod: SysctlPeriod, sysRuntime: SysctlRuntime)

  ghost predicate Wf(s: RtState) {
    && s.period.Keys == s.runtime.Keys == s.tree.children.Keys
    && (forall g :: g in s.tree.children ==> |s.tree.children[g]| <= MAX_CHILDREN)
  }

  const BOOT: RtState :=
    RtState(Groups(1, map[], map[0 := []]), map[0 := 1_000_000_000], map[0 := 950_000_000],
            1_000_000_000, 1_000_000, 950_000)

  type State = s: RtState | Wf(s) ghost witness BOOT

  // ---------------------------------------------------------------- the check

  function Cap(s: RtState): nat {
    GlobalRatio(s.sysPeriod, s.sysRuntime)
  }

  /** rt_schedulable_data: the group whose parameters are proposed to change, if any. */
  datatype Proposal = Nothing | Change(tg: nat, period: nat, runtime: nat)

  function PeriodOf(s: State, d: Proposal, g: nat): nat
    requires s.tree.Has(g)
  {
    if d.Change? && d.tg == g then d.period else s.period[g]
  }

  function RuntimeOf(s: State, d: Proposal, g: nat): nat
    requires s.tree.Has(g)
  {
    if d.Change? && d.tg == g then d.runtime else s.runtime[g]
  }

  function RatioOf(s: State, d: Proposal, g: nat): nat
    requires s.tree.Has(g)
  {
    ToRatio(PeriodOf(s, d, g), RuntimeOf(s, d, g))
  }

  predicate AllHave(t: Tree, cs: seq<nat>) {
    forall k :: 0 <= k < |cs| ==> t.Has(cs[k])
  }

  lemma ChildrenExist(t: Tree, g: nat)
    requires t.Has(g)
    ensures AllHave(t, t.children[g])
  {
  }

  /** The true sum of the ratios of a list of groups. */
  function SumRatios(s: State, d: Proposal, cs: seq<nat>): nat
    requires AllHave(s.tree, cs)
  {
    if cs == [] then 0 else SumRatios(s, d, cs[..|cs| - 1]) + RatioOf(s, d, cs[|cs| - 1])
  }

  /** tg_rt_schedulable for group g; `busy` are the groups that hold real-time tasks. */
  function RtCheck(s: State, d: Proposal, busy: set<nat>, g: nat): int
    requires s.tree.Has(g)
  {
    var period, runtime := PeriodOf(s, d, g), RuntimeOf(s, d, g);
    if runtime > period && runtime != RUNTIME_INF then EINVAL
    else if s.sysRuntime >= 0 && runtime == 0 && g in busy then EBUSY
    else
      var total := ToRatio(period, runtime);
      ChildrenExist(s.tree, g);
      if total > Cap(s) then EINVAL
      else if SumRatios(s, d, s.tree.children[g]) % U64 > total then EINVAL
      else 0
  }

  /**
    The same check as the source writes it, with the loop over the child list. A visitor is a value, so
    the walk below runs RtCheck, which this method shows to be what the loop computes.
   */
  method TgRtSchedulable(s: State, d: Proposal, busy: set<nat>, g: nat) returns (ret: int)
    requires s.tree.Has(g)
    ensures ret == RtCheck(s, d, busy, g)
  {
    var period, runtime := s.period[g], s.runtime[g];
    if d.Change? && d.tg == g { period, runtime := d.period, d.runtime; }
    if runtime > period && runtime != RUNTIME_INF { return EINVAL; }
    if s.sysRuntime >= 0 && runtime == 0 && g in busy { return EBUSY; }
    var total := ToRatio(period, runtime);
    if total > Cap(s) { return EINVAL; }
    ChildrenExist(s.tree, g);
    var sum := SumOfChildren(s, d, s.tree.children[g]);
    if sum > total { return EINVAL; }
    return 0;
  }

  method SumOfChildren(s: State, d: Proposal, children: seq<nat>) returns (sum: nat)
    requires AllHave(s.tree, children)
    ensures sum == SumRatios(s, d, children) % U64
  {
    sum := 0;
    for k := 0 to |children|
      invariant sum == SumRatios(s, d, children[..k]) % U64
    {
      SumStep(s, d, children, k);
      var period, runtime := s.period[children[k]], s.runtime[children[k]];
      if d.Change? && d.tg == children[k] { period, runtime := d.period, d.runtime; }
      sum := (sum + ToRatio(period, runtime)) % U64;
    }
    assert children[..|children|] == children;
  }

  lemma SumStep(s: State, d: Proposal, cs: seq<nat>, k: nat)
    requires AllHave(s.tree, cs) && k < |cs|
    ensures SumRatios(s, d, cs[..k + 1]) == SumRatios(s, d, cs[..k]) + RatioOf(s, d, cs[k])
    ensures SumRatios(s, d, cs[..k + 1]) % U64 == (SumRatios(s, d, cs[..k]) % U64 + RatioOf(s, d, cs[k])) % U64
  {
    assert cs[..k + 1][..k] == cs[..k];
    AddModulo(SumRatios(s, d, cs[..k]), RatioOf(s, d, cs[k]));
  }

  lemma AddModulo(a: nat, b: nat)
    ensures (a % U64 + b) % U64 == (a + b) % U64
  {
    var q := a / U64;
    assert a == a % U64 + q * U64;
    assert (a % U64 + b + q * U64) % U64 == (a % U64 + b) % U64 by { ShiftModulo(a % U64 + b, q); }
  }

  lemma {:induction false} ShiftModulo(x: nat, q: nat)
    ensures (x + q * U64) % U64 == x % U64
  {
    if q == 0 {
    } else {
      ShiftModulo(x, q - 1);
      assert x + q * U64 == x + (q - 1) * U64 + U64;
    }
  }

  function RtDown(s: State, d: Proposal, busy: set<nat>): Visitor<()> {
    (g: nat, u) => (if s.tree.Has(g) then RtCheck(s, d, busy, g) else 0, u)
  }

  /** Every group passes the check. */
  predicate Schedulable(s: State, d: Proposal, busy: set<nat>) {
    forall g: nat :: g in s.tree.children ==> RtCheck(s, d, busy, g) == 0
  }

  /** __rt_schedulable: 0 exactly when every group of the tree passes; else the first failure. */
  method RtSchedulable(s: State, d: Proposal, busy: set<nat>) returns (ret: int)
    ensures ret == 0 <==> Schedulable(s, d, busy)
    ensures ret == RunCalls(Calls(s.tree, ROOT), RtDown(s, d, busy), Nop(), ()).0
  {
    var u;
    ret, u := WalkTgTreeFrom(s.tree, ROOT, RtDown(s, d, busy), Nop(), ());
    WalkChecksAll(s, d, busy);
  }

  lemma WalkChecksAll(s: State, d: Proposal, busy: set<nat>)
    ensures RunCalls(Calls(s.tree, ROOT), RtDown(s, d, busy), Nop(), ()).0 == 0 <==> Schedulable(s, d, busy)
  {
    var cs, down := Calls(s.tree, ROOT), RtDown(s, d, busy);
    StatelessRun(cs, down, Nop());
    if forall k :: 0 <= k < |cs| ==> Apply(cs[k], down, Nop(), ()).0 == 0 {
      forall g: nat | g in s.tree.children ensures RtCheck(s, d, busy, g) == 0 {
        EnteredIsChecked(s, d, busy, g, cs);
      }
    }
    if Schedulable(s, d, busy) {
      forall k | 0 <= k < |cs| ensures Apply(cs[k], down, Nop(), ()).0 == 0 { CallSucceeds(s, d, busy, cs[k]); }
    }
  }

  lemma EnteredIsChecked(s: State, d: Proposal, busy: set<nat>, g: nat, cs: seq<Call>)
    requires s.tree.Has(g) && cs == Calls(s.tree, ROOT)
    requires forall k :: 0 <= k < |cs| ==> Apply(cs[k], RtDown(s, d, busy), Nop(), ()).0 == 0
    ensures RtCheck(s, d, busy, g) == 0
  {
    var k := EnteredAt(s.tree, g);
    assert Apply(cs[k], RtDown(s, d, busy), Nop(), ()).0 == RtCheck(s, d, busy, g);
  }

  lemma CallSucceeds(s: State, d: Proposal, busy: set<nat>, c: Call)
    requires Schedulable(s, d, busy)
    ensures Apply(c, RtDown(s, d, busy), Nop(), ()).0 == 0
  {
  }

  // ---------------------------------------------------------------- the invariant

  function Ratio(s: State, g: nat): nat
    requires s.tree.Has(g)
  {
    RatioOf(s, Nothing, g)
  }

  function ChildSum(s: State, g: nat): nat
    requires s.tree.Has(g)
  {
    ChildrenExist(s.tree, g);
    SumRatios(s, Nothing, s.tree.children[g])
  }

  /** The promise made to every group of the hierarchy. */
  predicate GroupFits(s: State, g: nat)
    requires s.tree.Has(g)
  {
    && (s.runtime[g] <= s.period[g] || s.runtime[g] == RUNTIME_INF)
    && Ratio(s, g) <= Cap(s)
    && ChildSum(s, g) <= Ratio(s, g)
  }

  predicate Fits(s: State) {
    forall g: nat :: g in s.tree.children ==> GroupFits(s, g)
  }

  lemma {:induction false} SumAtMost(s: State, d: Proposal, cs: seq<nat>)
    requires AllHave(s.tree, cs)
    requires forall k :: 0 <= k < |cs| ==> RatioOf(s, d, cs[k]) <= BW_UNIT
    ensures SumRatios(s, d, cs) <= |cs| * BW_UNIT
  {
    if cs == [] {
    } else {
      SumAtMost(s, d, cs[..|cs| - 1]);
    }
  }

  lemma {:induction false} SumCongruent(s: State, d: Proposal, s': State, cs: seq<nat>)
    requires AllHave(s.tree, cs) && AllHave(s'.tree, cs)
    requires forall k :: 0 <= k < |cs| ==> RatioOf(s, d, cs[k]) == Ratio(s', cs[k])
    ensures SumRatios(s, d, cs) == SumRatios(s', Nothing, cs)
  {
    if cs == [] {
    } else {
      SumCongruent(s, d, s', cs[..|cs| - 1]);
    }
  }

  /** What an accepted check promises of one group, with the sum no longer taken modulo 2^64. */
  lemma CheckMeans(s: State, d: Proposal, busy: set<nat>, g: nat)
    requires s.tree.Has(g) && Schedulable(s, d, busy)
    ensures RuntimeOf(s, d, g) <= PeriodOf(s, d, g) || RuntimeOf(s, d, g) == RUNTIME_INF
    ensures RatioOf(s, d, g) <= Cap(s)
    ensures AllHave(s.tree, s.tree.children[g]) && SumRatios(s, d, s.tree.children[g]) <= RatioOf(s, d, g)
  {
    assert RtCheck(s, d, busy, g) == 0;
    var cs := s.tree.children[g];
    ChildrenExist(s.tree, g);
    forall k | 0 <= k < |cs| ensures RatioOf(s, d, cs[k]) <= BW_UNIT {
      assert RtCheck(s, d, busy, cs[k]) == 0;
      RatioAtMostOne(PeriodOf(s, d, cs[k]), RuntimeOf(s, d, cs[k]));
    }
    SumAtMost(s, d, cs);
    NoWrap(SumRatios(s, d, cs), |cs|);
  }

  lemma NoWrap(sum: nat, n: nat)
    requires n <= MAX_CHILDREN && sum <= n * BW_UNIT
    ensures sum % U64 == sum
  {
  }

  // ---------------------------------------------------------------- the operations

  function Commit(s: State, d: Proposal): State
    requires d.Change? ==> s.tree.Has(d.tg)
  {
    if d.Nothing? then s else s.(period := s.period[d.tg := d.period], runtime := s.runtime[d.tg := d.runtime])
  }

  lemma CommitRatios(s: State, d: Proposal, s': State, g: nat)
    requires d.Change? ==> s.tree.Has(d.tg)
    requires s' == Commit(s, d) && s.tree.Has(g)
    ensures s'.period[g] == PeriodOf(s, d, g) && s'.runtime[g] == RuntimeOf(s, d, g) && Ratio(s', g) == RatioOf(s, d, g)
    ensures Cap(s') == Cap(s) && s'.tree == s.tree
  {
  }

  lemma CommitChildSum(s: State, d: Proposal, s': State, g: nat)
    requires d.Change? ==> s.tree.Has(d.tg)
    requires s' == Commit(s, d) && s.tree.Has(g) && AllHave(s.tree, s.tree.children[g])
    ensures s'.tree.Has(g) && ChildSum(s', g) == SumRatios(s, d, s.tree.children[g])
  {
    var cs := s.tree.children[g];
    forall k | 0 <= k < |cs| ensures RatioOf(s, d, cs[k]) == Ratio(s', cs[k]) { CommitRatios(s, d, s', cs[k]); }
    SumCongruent(s, d, s', cs);
  }

  lemma CommittedGroup(s: State, d: Proposal, busy: set<nat>, g: nat, s': State)
    requires d.Change? ==> s.tree.Has(d.tg)
    requires Schedulable(s, d, busy) && s.tree.Has(g) && s' == Commit(s, d)
    ensures s'.tree.Has(g) && GroupFits(s', g)
  {
    CheckMeans(s, d, busy, g);
    CommitRatios(s, d, s', g);
    CommitChildSum(s, d, s', g);
  }

  /** A proposal that passes the check may be committed: the whole hierarchy still fits. */
  lemma CommitFits(s: State, d: Proposal, busy: set<nat>)
    requires d.Change? ==> s.tree.Has(d.tg)
    requires Schedulable(s, d, busy)
    ensures Fits(Commit(s, d))
  {
    forall g: nat | g in s.tree.children ensures GroupFits(Commit(s, d), g) {
      CommittedGroup(s, d, busy, g, Commit(s, d));
    }
  }

  /** With limits enabled the group has no runtime although it holds real-time tasks. */
  predicate Starved(s: State, busy: set<nat>, g: nat)
    requires s.tree.Has(g)
  {
    s.sysRuntime >= 0 && s.runtime[g] == 0 && g in busy
  }

  predicate StarvesNone(s: State, busy: set<nat>) {
    forall g: nat :: g in s.tree.children ==> !Starved(s, busy, g)
  }

  /** Why a group of the hierarchy s that is proposed is refused, if it is; `sum` is that of its children. */
  lemma RtCheckIs(s0: State, d: Proposal, busy: set<nat>, g: nat, s: State)
    requires (d.Change? ==> s0.tree.Has(d.tg)) && s == Commit(s0, d) && s0.tree.Has(g)
    ensures s.tree.Has(g)
    ensures RtCheck(s0, d, busy, g) == EBUSY <==> Starved(s, busy, g)
    ensures RtCheck(s0, d, busy, g) == EINVAL <==>
      (!Starved(s, busy, g)
       && ((s.runtime[g] > s.period[g] && s.runtime[g] != RUNTIME_INF)
           || Ratio(s, g) > Cap(s) || ChildSum(s, g) % U64 > Ratio(s, g)))
    ensures RtCheck(s0, d, busy, g) in {0, EBUSY, EINVAL}
  {
    ChildrenExist(s0.tree, g);
    CommitRatios(s0, d, s, g);
    CommitChildSum(s0, d, s, g);
  }

  /** A proposal is accepted exactly when the hierarchy it leads to fits and starves no real-time task. */
  lemma SchedulableIff(s: State, d: Proposal, busy: set<nat>)
    requires d.Change? ==> s.tree.Has(d.tg)
    ensures Schedulable(s, d, busy) <==> Fits(Commit(s, d)) && StarvesNone(Commit(s, d), busy)
  {
    var s' := Commit(s, d);
    if Schedulable(s, d, busy) {
      CommitFits(s, d, busy);
      forall g: nat | g in s'.tree.children ensures !Starved(s', busy, g) {
        assert RtCheck(s, d, busy, g) == 0;
        RtCheckIs(s, d, busy, g, s');
      }
    }
    if Fits(s') && StarvesNone(s', busy) {
      forall g: nat | g in s.tree.children ensures RtCheck(s, d, busy, g) == 0 {
        assert GroupFits(s', g) && s'.tree.Has(g) && !Starved(s', busy, g);
        ModAtMost(ChildSum(s', g));
        RtCheckIs(s, d, busy, g, s');
      }
    }
  }

  lemma ModAtMost(x: nat)
    ensures x % U64 <= x
  {
  }

  /** tg_set_rt_bandwidth */
  function SetRtBandwidth(s: State, tg: nat, period: nat, runtime: nat, busy: set<nat>): State
    requires s.tree.Has(tg)
  {
    if Schedulable(s, Change(tg, period, runtime), busy) then Commit(s, Change(tg, period, runtime)) else s
  }

  /** sched_create_group and sched_online_group: a new group starts with no real-time runtime. */
  function CreateGroup(s: State, p: nat): State
    requires s.tree.Has(p)
  {
    if |s.tree.children[p]| == MAX_CHILDREN then s
    else
      CreatedIsWf(s, p);
      Created(s, p)
  }

  function Created(s: State, p: nat): RtState
    requires s.tree.Has(p)
  {
    var g := s.tree.next;
    s.(tree := Online(s.tree, p), period := s.period[g := s.defPeriod], runtime := s.runtime[g := 0])
  }

  /** A new group comes first among its siblings, with the default period and no runtime; no other changes. */
  lemma CreateIs(s: State, p: nat)
    requires s.tree.Has(p) && |s.tree.children[p]| < MAX_CHILDREN
    ensures var s', g := CreateGroup(s, p), s.tree.next;
      && s'.tree.children.Keys == s.tree.children.Keys + {g} && g !in s.tree.children
      && s'.tree.Has(g) && s'.tree.children[g] == [] && s'.tree.children[p] == [g] + s.tree.children[p]
      && s'.period[g] == s.defPeriod && s'.runtime[g] == 0
      && (forall x: nat :: s.tree.Has(x) ==> s'.period[x] == s.period[x] && s'.runtime[x] == s.runtime[x])
      && (s'.defPeriod, s'.sysPeriod, s'.sysRuntime) == (s.defPeriod, s.sysPeriod, s.sysRuntime)
  {
    OnlineLists(s.tree, p, p);
    OnlineLists(s.tree, p, s.tree.next);
  }

  lemma CreatedIsWf(s: State, p: nat)
    requires s.tree.Has(p) && |s.tree.children[p]| < MAX_CHILDREN
    ensures Wf(Created(s, p))
  {
    var t' := Online(s.tree, p);
    forall g: nat | g in t'.children ensures |t'.children[g]| <= MAX_CHILDREN { OnlineLists(s.tree, p, g); }
  }

  /** sched_offline_group of a group without children. */
  function RemoveGroup(s: State, g: nat): State
    requires g in s.tree.parent && s.tree.children[g] == []
  {
    RemovedLengths(s.tree, g);
    s.(tree := Offline(s.tree, g), period := s.period - {g}, runtime := s.runtime - {g})
  }

  lemma {:induction false} WithoutLength(x: seq<nat>, y: nat)
    ensures |Without(x, y)| <= |x|
  {
    if x == [] {
    } else {
      WithoutLength(x[1..], y);
    }
  }

  lemma RemovedLengths(t: Tree, g: nat)
    requires g in t.parent && t.children[g] == []
    ensures forall x :: x in Offline(t, g).children ==> |Offline(t, g).children[x]| <= |t.children[x]|
  {
    WithoutLength(t.children[t.parent[g]], g);
  }

  /** A write to the two sysctls; `dlBusy` is the verdict of sched_dl_global_constraints. */
  function RtHandler(s: State, period: SysctlPeriod, runtime: SysctlRuntime, busy: set<nat>, dlBusy: bool): State {
    var s1 := s.(sysPeriod := period, sysRuntime := runtime);
    if !GlobalValid(period, runtime) || !Schedulable(s1, Nothing, busy) || dlBusy then s
    else s1.(defPeriod := GlobalPeriod(s1.sysPeriod))
  }

  /** Removing a group touches no other. */
  lemma RemoveIs(s: State, g: nat, s': State)
    requires g in s.tree.parent && s.tree.children[g] == [] && s' == RemoveGroup(s, g)
    ensures !s'.tree.Has(g) && forall x: nat | s.tree.Has(x) && x != g
      :: s'.tree.Has(x) && s'.period[x] == s.period[x] && s'.runtime[x] == s.runtime[x]
    ensures (s'.defPeriod, s'.sysPeriod, s'.sysRuntime) == (s.defPeriod, s.sysPeriod, s.sysRuntime)
  {
  }

  /** A write is accepted if it is valid, the groups fit under it, and no real-time or deadline task suffers. */
  predicate WriteAccepted(s1: State, busy: set<nat>, dlBusy: bool) {
    GlobalValid(s1.sysPeriod, s1.sysRuntime) && Fits(s1) && StarvesNone(s1, busy) && !dlBusy
  }

  lemma WriteAcceptedIff(s1: State, busy: set<nat>, dlBusy: bool)
    ensures WriteAccepted(s1, busy, dlBusy) <==>
      GlobalValid(s1.sysPeriod, s1.sysRuntime) && Schedulable(s1, Nothing, busy) && !dlBusy
  {
    SchedulableIff(s1, Nothing, busy);
  }

  lemma DefaultPeriodIs(period: SysctlPeriod)
    ensures GlobalPeriod(period) == period * 1000
  {
  }

  /** An accepted write changes the sysctls and the default period of new groups, a refused one nothing. */
  lemma HandlerIs(s: State, period: SysctlPeriod, runtime: SysctlRuntime, busy: set<nat>, dlBusy: bool, s1: State)
    requires s1 == s.(sysPeriod := period, sysRuntime := runtime)
    ensures RtHandler(s, period, runtime, busy, dlBusy) ==
      if WriteAccepted(s1, busy, dlBusy) then s1.(defPeriod := period * 1000) else s
  {
    WriteAcceptedIff(s1, busy, dlBusy);
    DefaultPeriodIs(period);
  }

  lemma OldListSum(s: State, p: nat, g: nat, s': State)
    requires s.tree.Has(p) && s.tree.Has(g) && |s.tree.children[p]| < MAX_CHILDREN && s' == CreateGroup(s, p)
    ensures AllHave(s'.tree, s.tree.children[g]) && SumRatios(s', Nothing, s.tree.children[g]) == ChildSum(s, g)
  {
    ChildrenExist(s.tree, g);
    SumCongruent(s, Nothing, s', s.tree.children[g]);
  }

  lemma NewChildSum(s: State, p: nat, s': State)
    requires s.tree.Has(p) && |s.tree.children[p]| < MAX_CHILDREN && s' == CreateGroup(s, p)
    ensures ChildSum(s', p) == ChildSum(s, p)
  {
    OldListSum(s, p, p, s');
    SumPrepend(s', s.tree.next, s.tree.children[p]);
    ZeroRatio(s.defPeriod);
  }

  lemma OldParameters(s: State, p: nat, g: nat, s': State)
    requires s.tree.Has(p) && s.tree.Has(g) && |s.tree.children[p]| < MAX_CHILDREN && s' == CreateGroup(s, p)
    ensures s'.tree.Has(g) && s'.runtime[g] == s.runtime[g] && s'.period[g] == s.period[g]
    ensures s'.sysPeriod == s.sysPeriod && s'.sysRuntime == s.sysRuntime
    ensures g != p ==> s'.tree.children[g] == s.tree.children[g]
  {
    CreateIs(s, p);
    OnlineLists(s.tree, p, g);
  }

  lemma SameParametersFit(s: State, s': State, g: nat)
    requires s.tree.Has(g) && s'.tree.Has(g) && s'.runtime[g] == s.runtime[g] && s'.period[g] == s.period[g]
    requires s'.sysPeriod == s.sysPeriod && s'.sysRuntime == s.sysRuntime
    requires GroupFits(s, g) && ChildSum(s', g) == ChildSum(s, g)
    ensures GroupFits(s', g)
  {
  }

  lemma OldGroupFits(s: State, p: nat, g: nat, s': State)
    requires s.tree.Has(p) && s.tree.Has(g) && GroupFits(s, g) && |s.tree.children[p]| < MAX_CHILDREN
    requires s' == CreateGroup(s, p)
    ensures s'.tree.Has(g) && GroupFits(s', g)
  {
    OldParameters(s, p, g, s');
    if g == p { NewChildSum(s, p, s'); } else { OldListSum(s, p, g, s'); }
    SameParametersFit(s, s', g);
  }

  lemma NewGroupFits(s: State, p: nat)
    requires s.tree.Has(p) && |s.tree.children[p]| < MAX_CHILDREN
    ensures GroupFits(CreateGroup(s, p), s.tree.next)
  {
    ZeroRatio(s.defPeriod);
  }

  lemma CreateFits(s: State, p: nat)
    requires s.tree.Has(p) && Fits(s)
    ensures Fits(CreateGroup(s, p))
  {
    var s' := CreateGroup(s, p);
    if |s.tree.children[p]| < MAX_CHILDREN {
      forall g: nat | g in s'.tree.children ensures GroupFits(s', g) {
        if g == s.tree.next { NewGroupFits(s, p); } else { OldGroupFits(s, p, g, s'); }
      }
    }
  }

  lemma {:induction false} SumPrepend(s: State, g: nat, cs: seq<nat>)
    requires s.tree.Has(g) && AllHave(s.tree, cs)
    ensures AllHave(s.tree, [g] + cs) && SumRatios(s, Nothing, [g] + cs) == Ratio(s, g) + SumRatios(s, Nothing, cs)
  {
    if cs != [] {
      SumPrepend(s, g, cs[..|cs| - 1]);
      assert ([g] + cs)[..|cs|] == [g] + cs[..|cs| - 1];
    } else {
      assert [g] + cs == [g] && [g][..0] == [];
    }
  }

  lemma {:induction false} SumWithout(s: State, cs: seq<nat>, g: nat)
    requires AllHave(s.tree, cs)
    ensures AllHave(s.tree, Without(cs, g)) && SumRatios(s, Nothing, Without(cs, g)) <= SumRatios(s, Nothing, cs)
  {
    if cs == [] {
    } else {
      assert cs == [cs[0]] + cs[1..];
      SumWithout(s, cs[1..], g);
      SumPrepend(s, cs[0], cs[1..]);
      if cs[0] != g { SumPrepend(s, cs[0], Without(cs[1..], g)); }
    }
  }

  lemma KeptGroupFits(s: State, g: nat, x: nat)
    requires g in s.tree.parent && s.tree.children[g] == [] && s.tree.Has(x) && x != g && GroupFits(s, x)
    ensures GroupFits(RemoveGroup(s, g), x)
  {
    var s' := RemoveGroup(s, g);
    ChildrenExist(s.tree, x);
    ChildrenExist(s'.tree, x);
    SumCongruent(s, Nothing, s', s'.tree.children[x]);
    SumWithout(s, s.tree.children[x], g);
  }

  lemma RemoveFits(s: State, g: nat)
    requires g in s.tree.parent && s.tree.children[g] == [] && Fits(s)
    ensures Fits(RemoveGroup(s, g))
  {
    var s' := RemoveGroup(s, g);
    forall x: nat | x in s'.tree.children ensures GroupFits(s', x) { KeptGroupFits(s, g, x); }
  }

  /** Only the default period changes: no group notices. */
  lemma DefPeriodFits(s: State, n: nat, g: nat)
    requires s.tree.Has(g) && GroupFits(s, g)
    ensures GroupFits(s.(defPeriod := n), g)
  {
    ChildrenExist(s.tree, g);
    SumCongruent(s, Nothing, s.(defPeriod := n), s.tree.children[g]);
  }

  lemma HandlerFits(s: State, period: SysctlPeriod, runtime: SysctlRuntime, busy: set<nat>, dlBusy: bool)
    requires Fits(s)
    ensures Fits(RtHandler(s, period, runtime, busy, dlBusy))
  {
    var s1: State := s.(sysPeriod := period, sysRuntime := runtime);
    if GlobalValid(period, runtime) && Schedulable(s1, Nothing, busy) && !dlBusy {
      CommitFits(s1, Nothing, busy);
      forall g: nat | g in s1.tree.children ensures GroupFits(s1.(defPeriod := GlobalPeriod(s1.sysPeriod)), g) {
        DefPeriodFits(s1, GlobalPeriod(s1.sysPeriod), g);
      }
    }
  }

  // ---------------------------------------------------------------- runs

  datatype Op =
    | Set(tg: nat, period: nat, runtime: nat, busy: set<nat>)
    | Create(p: nat)
    | Remove(g: nat)
    | Limits(sysPeriod: SysctlPeriod, sysRuntime: SysctlRuntime, busy: set<nat>, dlBusy: bool)

  predicate Enabled(s: State, op: Op) {
    match op
    case Set(tg, _, _, _) => s.tree.Has(tg)
    case Create(p) => s.tree.Has(p)
    case Remove(g) => g in s.tree.parent && s.tree.children[g] == []
    case Limits(_, _, _, _) => true
  }

  function Do(s: State, op: Op): State
    requires Enabled(s, op)
  {
    match op
    case Set(tg, period, runtime, busy) => SetRtBandwidth(s, tg, period, runtime, busy)
    case Create(p) => CreateGroup(s, p)
    case Remove(g) => RemoveGroup(s, g)
    case Limits(period, runtime, busy, dlBusy) => RtHandler(s, period, runtime, busy, dlBusy)
  }

  ghost predicate Init(s: State) {
    s == BOOT
  }

  ghost predicate Next(s: State, s': State) {
    exists op :: Enabled(s, op) && s' == Do(s, op)
  }

  lemma BootFits()
    ensures Fits(BOOT)
  {
  }

  lemma DoFits(s: State, op: Op)
    requires Fits(s) && Enabled(s, op)
    ensures Fits(Do(s, op))
  {
    match op
    case Set(tg, period, runtime, busy) =>
      if Schedulable(s, Change(tg, period, runtime), busy) { CommitFits(s, Change(tg, period, runtime), busy); }
    case Create(p) => CreateFits(s, p);
    case Remove(g) => RemoveFits(s, g);
    case Limits(period, runtime, busy, dlBusy) => HandlerFits(s, period, runtime, busy, dlBusy);
  }

  /** After any run of the operations, accepted or rejected, the whole hierarchy fits. */
  lemma HierarchyAlwaysFits(r: seq<State>, k: nat)
    requires IsRun(Init, Next, r) && k < |r|
    ensures Fits(r[k])
  {
    forall s: State | Init(s) ensures Fits(s) { BootFits(); }
    forall s: State, s': State | Fits(s) && Next(s, s') ensures Fits(s') {
      var op :| Enabled(s, op) && s' == Do(s, op);
      DoFits(s, op);
    }
    RunInvariant(Init, Next, s => Fits(s), r, k);
  }

  // ---------------------------------------------------------------- antichains

  /** The ratios of the groups in `a` whose number is below n. */
  ghost function SumOver(s: State, a: set<nat>, n: nat): nat
    requires forall g :: g in a ==> s.tree.Has(g)
  {
    if n == 0 then 0 else SumOver(s, a, n - 1) + (if n - 1 in a then Ratio(s, n - 1) else 0)
  }

  ghost predicate Antichain(t: Tree, a: set<nat>) {
    && (forall g :: g in a ==> t.Has(g))
    && (forall x, y :: x in a && y in a && x != y ==> !IsAncestor(t, x, y))
  }

  /** The members of `a` in the subtree of g, and in the subtrees of its children before the k-th. */
  ghost function Under(t: Tree, a: set<nat>, g: nat): set<nat> {
    set x | x in a && t.Has(x) && IsAncestor(t, g, x)
  }

  ghost function UnderFirst(t: Tree, a: set<nat>, g: nat, k: nat): set<nat>
    requires t.Has(g) && k <= |t.children[g]|
  {
    set x | x in a && t.Has(x) && x != g && IsAncestor(t, g, x) && t.IndexOf(ChildToward(t, g, x)) < k
  }

  lemma {:induction false} SumDisjoint(s: State, a: set<nat>, b: set<nat>, c: set<nat>, n: nat)
    requires a !! b && c == a + b && forall g :: g in c ==> s.tree.Has(g)
    ensures SumOver(s, c, n) == SumOver(s, a, n) + SumOver(s, b, n)
  {
    if n == 0 {
    } else {
      SumDisjoint(s, a, b, c, n - 1);
    }
  }

  lemma {:induction false} SumSingle(s: State, g: nat, n: nat)
    requires s.tree.Has(g)
    ensures SumOver(s, {g}, n) == if g < n then Ratio(s, g) else 0
  {
    if n == 0 {
    } else {
      SumSingle(s, g, n - 1);
    }
  }

  lemma {:induction false} SumEmpty(s: State, n: nat)
    ensures SumOver(s, {}, n) == 0
  {
    if n == 0 {
    } else {
      SumEmpty(s, n - 1);
    }
  }

  lemma UnderFirstStep(t: Tree, a: set<nat>, g: nat, k: nat)
    requires t.Has(g) && k < |t.children[g]|
    ensures UnderFirst(t, a, g, k) !! Under(t, a, t.children[g][k])
    ensures UnderFirst(t, a, g, k + 1) == UnderFirst(t, a, g, k) + Under(t, a, t.children[g][k])
  {
    var c := t.children[g][k];
    IndexIs(t, g, k);
    forall x | x in a && t.Has(x) && IsAncestor(t, c, x)
      ensures x != g && IsAncestor(t, g, x) && ChildToward(t, g, x) == c
    {
      SoleChildToward(t, g, x, c);
    }
    forall x | x in UnderFirst(t, a, g, k + 1) && x !in UnderFirst(t, a, g, k) ensures x in Under(t, a, c) {
      var j := t.IndexOf(ChildToward(t, g, x));
      assert j == k;
    }
  }

  /** Groups none of which lies below another take together at most what the group above them has. */
  lemma {:induction false} AntichainUnder(s: State, a: set<nat>, g: nat, n: nat)
    requires Fits(s) && Antichain(s.tree, a) && s.tree.Has(g)
    ensures SumOver(s, Under(s.tree, a, g), n) <= Ratio(s, g)
    decreases s.tree.next - g, |s.tree.children[g]| + 1
  {
    assert GroupFits(s, g);
    if g in a {
      assert Under(s.tree, a, g) == {g};
      SumSingle(s, g, n);
    } else {
      AntichainChildren(s, a, g, |s.tree.children[g]|, n);
      assert Under(s.tree, a, g) == UnderFirst(s.tree, a, g, |s.tree.children[g]|);
      assert s.tree.children[g][..|s.tree.children[g]|] == s.tree.children[g];
    }
  }

  lemma {:induction false} AntichainChildren(s: State, a: set<nat>, g: nat, k: nat, n: nat)
    requires Fits(s) && Antichain(s.tree, a) && s.tree.Has(g) && k <= |s.tree.children[g]|
    ensures AllHave(s.tree, s.tree.children[g][..k])
    ensures SumOver(s, UnderFirst(s.tree, a, g, k), n) <= SumRatios(s, Nothing, s.tree.children[g][..k])
    decreases s.tree.next - g, k
  {
    ChildrenExist(s.tree, g);
    if k == 0 {
      assert UnderFirst(s.tree, a, g, 0) == {};
      SumEmpty(s, n);
    } else {
      var c := s.tree.children[g][k - 1];
      AntichainChildren(s, a, g, k - 1, n);
      IndexIs(s.tree, g, k - 1);
      AntichainUnder(s, a, c, n);
      AddChild(s, a, g, k - 1, n, c);
    }
  }

  lemma AddChild(s: State, a: set<nat>, g: nat, k: nat, n: nat, c: nat)
    requires s.tree.Has(g) && k < |s.tree.children[g]| && c == s.tree.children[g][k] && s.tree.Has(c)
    ensures SumOver(s, UnderFirst(s.tree, a, g, k + 1), n) ==
      SumOver(s, UnderFirst(s.tree, a, g, k), n) + SumOver(s, Under(s.tree, a, c), n)
    ensures AllHave(s.tree, s.tree.children[g])
    ensures SumRatios(s, Nothing, s.tree.children[g][..k + 1]) ==
      SumRatios(s, Nothing, s.tree.children[g][..k]) + Ratio(s, c)
  {
    ChildrenExist(s.tree, g);
    UnderFirstStep(s.tree, a, g, k);
    SumDisjoint(s, UnderFirst(s.tree, a, g, k), Under(s.tree, a, c), UnderFirst(s.tree, a, g, k + 1), n);
    SumStep(s, Nothing, s.tree.children[g], k);
  }

  /** In every reachable state any set of groups, none above another, sums to at most the root's ratio. */
  lemma AntichainAtMostRoot(r: seq<State>, k: nat, a: set<nat>)
    requires IsRun(Init, Next, r) && k < |r| && Antichain(r[k].tree, a)
    ensures SumOver(r[k], a, r[k].tree.next) <= Ratio(r[k], ROOT) <= Cap(r[k])
  {
    var s := r[k];
    HierarchyAlwaysFits(r, k);
    assert GroupFits(s, ROOT);
    forall g: nat | g in a ensures IsAncestor(s.tree, ROOT, g) { RootIsAbove(s.tree, g); }
    assert Under(s.tree, a, ROOT) == a;
    AntichainUnder(s, a, ROOT, s.tree.next);
  }

  // ---------------------------------------------------------------- true quotients

  function TrueRatioOf(s: State, g: nat): nat
    requires s.tree.Has(g)
  {
    TrueRatio(s.period[g], s.runtime[g])
  }

  function TrueSum(s: State, cs: seq<nat>): nat
    requires AllHave(s.tree, cs)
  {
    if cs == [] then 0 else TrueSum(s, cs[..|cs| - 1]) + TrueRatioOf(s, cs[|cs| - 1])
  }

  /** No runtime is so large that its shift wraps. */
  predicate AllExact(s: State) {
    forall g: nat :: g in s.tree.children ==> s.runtime[g] == RUNTIME_INF || s.runtime[g] < EXACT_LIMIT
  }

  /** The promise made to a group, in true quotients. */
  predicate TrulyFits(s: State, g: nat)
    requires s.tree.Has(g)
  {
    && TrueRatioOf(s, g) <= TrueRatio(GlobalPeriod(s.sysPeriod), GlobalRuntime(s.sysRuntime))
    && (ChildrenExist(s.tree, g); TrueSum(s, s.tree.children[g]) <= TrueRatioOf(s, g))
  }

  lemma {:induction false} TrueSumIs(s: State, cs: seq<nat>)
    requires AllHave(s.tree, cs) && AllExact(s)
    ensures TrueSum(s, cs) == SumRatios(s, Nothing, cs)
  {
    if cs == [] {
    } else {
      TrueSumIs(s, cs[..|cs| - 1]);
      ExactBelow(s.period[cs[|cs| - 1]], s.runtime[cs[|cs| - 1]]);
    }
  }

  /** In every reachable state whose finite runtimes are below 2^44 ns the true quotients fit, group by group. */
  lemma TrueQuotientsFit(r: seq<State>, k: nat, g: nat)
    requires IsRun(Init, Next, r) && k < |r| && AllExact(r[k]) && r[k].tree.Has(g)
    ensures TrulyFits(r[k], g)
  {
    var s := r[k];
    HierarchyAlwaysFits(r, k);
    assert GroupFits(s, g);
    ChildrenExist(s.tree, g);
    TrueSumIs(s, s.tree.children[g]);
    ExactBelow(s.period[g], s.runtime[g]);
    ExactBelow(GlobalPeriod(s.sysPeriod), GlobalRuntime(s.sysRuntime));
  }

  /** The booted system with one group below the root. */
  predicate IsOneGroup(s: State) {
    && s.tree.children.Keys == {ROOT, 1} && s.tree.children[ROOT] == [1] && s.tree.children[1] == []
    && s.tree.parent == map[1 := ROOT]
    && s.period[ROOT] == 1_000_000_000 && s.runtime[ROOT] == 950_000_000 && s.runtime[1] == 0
    && s.sysPeriod == 1_000_000 && s.sysRuntime == 950_000
  }

  lemma OneGroupIs()
    ensures IsOneGroup(CreateGroup(BOOT, ROOT))
  {
    OnlineLists(BOOT.tree, ROOT, ROOT);
    OnlineLists(BOOT.tree, ROOT, 1);
  }

  /** 2^41 us, which are 125 * 2^44 ns, about 25 days. */
  const LONG_US: nat := 0x200_0000_0000
  const LONG: nat := LONG_US * NSEC_PER_USEC

  /** The group's period becomes so long, which the control accepts before the runtime does. */
  const LONG_PERIOD: Proposal := Change(1, LONG, 0)

  /** The group is given its whole period, that is, a whole CPU. */
  const WHOLE: Proposal := Change(1, LONG, LONG)

  lemma LongCountsAsNothing(runtime: nat)
    requires runtime == 0 || runtime == LONG
    ensures ToRatio(LONG, runtime) == 0 && LONG == UsToNs(LONG_US)
  {
  }

  lemma LongRatios(s: State, d: Proposal)
    requires IsOneGroup(s) && (d == LONG_PERIOD || d == WHOLE)
    ensures RatioOf(s, d, 1) == 0 && RatioOf(s, d, ROOT) == 996147 == Cap(s)
    ensures AllHave(s.tree, [1]) && SumRatios(s, d, [1]) == 0
  {
    LongCountsAsNothing(d.runtime);
    assert [1][..0] == [];
  }

  lemma LongIsAccepted(s: State, d: Proposal)
    requires IsOneGroup(s) && (d == LONG_PERIOD || d == WHOLE)
    ensures Schedulable(s, d, {})
  {
    LongRatios(s, d);
    forall g: nat | g in s.tree.children ensures RtCheck(s, d, {}, g) == 0 {
      assert g == ROOT || g == 1;
    }
  }

  lemma FirstGroupIsNext(s0: State, s1: State)
    requires Init(s0) && s1 == CreateGroup(s0, ROOT)
    ensures Next(s0, s1)
  {
    assert Enabled(s0, Create(ROOT)) && s1 == Do(s0, Create(ROOT));
  }

  lemma AcceptedIsNext(s: State, d: Proposal)
    requires d.Change? && s.tree.Has(d.tg) && Schedulable(s, d, {})
    ensures Next(s, Commit(s, d))
  {
    var op := Set(d.tg, d.period, d.runtime, {});
    assert Enabled(s, op) && Commit(s, d) == Do(s, op);
  }

  /** With the whole CPU committed the group truly has more than the root above it. */
  lemma WholeIsTooMuch(s: State)
    requires IsOneGroup(s)
    ensures TrueRatioOf(Commit(s, WHOLE), 1) > TrueRatioOf(Commit(s, WHOLE), ROOT)
  {
    assert LONG * BW_UNIT / LONG == BW_UNIT;
  }

  lemma LongKeepsOneGroup(s: State)
    requires IsOneGroup(s)
    ensures IsOneGroup(Commit(s, LONG_PERIOD))
  {
  }

  lemma LongRun(s0: State, s1: State, s2: State, s3: State)
    requires Init(s0) && s1 == CreateGroup(s0, ROOT) && IsOneGroup(s1)
    requires s2 == Commit(s1, LONG_PERIOD) && IsOneGroup(s2) && s3 == Commit(s2, WHOLE)
    ensures IsRun(Init, Next, [s0] + [s1] + [s2] + [s3])
  {
    FirstGroupIsNext(s0, s1);
    LongIsAccepted(s1, LONG_PERIOD);
    AcceptedIsNext(s1, LONG_PERIOD);
    LongIsAccepted(s2, WHOLE);
    AcceptedIsNext(s2, WHOLE);
    ExtendRun(Init, Next, [s0], s1);
    ExtendRun(Init, Next, [s0] + [s1], s2);
    ExtendRun(Init, Next, [s0] + [s1] + [s2], s3);
  }

  /** Each step is what one of the two controls writes: the new period, then the new runtime. */
  lemma LongIsWritten(s1: State, s2: State, s3: State)
    requires IsOneGroup(s1) && s2 == Commit(s1, LONG_PERIOD) && IsOneGroup(s2) && s3 == Commit(s2, WHOLE)
    ensures s2 == Commit(s1, Change(1, UsToNs(LONG_US), s1.runtime[1]))
    ensures s3 == Commit(s2, Change(1, s2.period[1], UsToNs(LONG_US)))
  {
    LongCountsAsNothing(0);
  }

  /** Such a run exists: the group is created, then its period is set, and then its runtime. */
  lemma WrapIsReachable() returns (s0: State, s1: State, s2: State, s3: State)
    ensures IsRun(Init, Next, [s0] + [s1] + [s2] + [s3])
    ensures s1.tree.Has(1) && s2 == Commit(s1, Change(1, UsToNs(LONG_US), s1.runtime[1]))
    ensures s2.tree.Has(1) && s3 == Commit(s2, Change(1, s2.period[1], UsToNs(LONG_US)))
    ensures s3.tree.Has(1) && s3.tree.parent == map[1 := ROOT] && TrueRatioOf(s3, 1) > TrueRatioOf(s3, ROOT)
  {
    s0, s1 := OneGroup();
    s2, s3 := WrapFrom(s0, s1);
  }

  lemma OneGroup() returns (s0: State, s1: State)
    ensures Init(s0) && s1 == CreateGroup(s0, ROOT) && IsOneGroup(s1)
  {
    OneGroupIs();
    s0 := BOOT;
    s1 := CreateGroup(s0, ROOT);
  }

  lemma WrapFrom(s0: State, s1: State) returns (s2: State, s3: State)
    requires Init(s0) && s1 == CreateGroup(s0, ROOT) && IsOneGroup(s1)
    ensures IsRun(Init, Next, [s0] + [s1] + [s2] + [s3])
    ensures s2 == Commit(s1, Change(1, UsToNs(LONG_US), s1.runtime[1]))
    ensures s2.tree.Has(1) && s3 == Commit(s2, Change(1, s2.period[1], UsToNs(LONG_US)))
    ensures s3.tree.Has(1) && s3.tree.parent == map[1 := ROOT] && TrueRatioOf(s3, 1) > TrueRatioOf(s3, ROOT)
  {
    s2 := Commit(s1, LONG_PERIOD);
    LongKeepsOneGroup(s1);
    s3 := Commit(s2, WHOLE);
    LongRun(s0, s1, s2, s3);
    LongIsWritten(s1, s2, s3);
    WholeIsTooMuch(s2);
  }

  // ---------------------------------------------------------------- the controls, updated in place

  /** cpu.rt_runtime_us as the user reads it: -1 stands for no limit. */
  function RuntimeUs(s: State, g: nat): int
    requires s.tree.Has(g)
  {
    if s.runtime[g] == RUNTIME_INF then -1 else s.runtime[g] / NSEC_PER_USEC
  }

  class RtControl {
    var tree: Tree
    var period: map<nat, nat>
    var runtime: map<nat, nat>
    var defPeriod: nat
    var sysPeriod: SysctlPeriod
    var sysRuntime: SysctlRuntime

    function Raw(): RtState
      reads this
    {
      RtState(tree, period, runtime, defPeriod, sysPeriod, sysRuntime)
    }

    ghost predicate Valid()
      reads this
    {
      Wf(Raw())
    }

    ghost function View(): State
      reads this
      requires Valid()
    {
      Raw()
    }

    constructor ()
      ensures Valid() && View() == BOOT
    {
      tree, period, runtime := BOOT.tree, BOOT.period, BOOT.runtime;
      defPeriod, sysPeriod, sysRuntime := BOOT.defPeriod, BOOT.sysPeriod, BOOT.sysRuntime;
    }

    /** tg_set_rt_bandwidth: the parameters change exactly when the check passes. */
    method SetBandwidth(tg: nat, rtPeriod: nat, rtRuntime: nat, busy: set<nat>) returns (err: int)
      requires Valid() && tree.Has(tg)
      modifies this
      ensures Valid() && (err == 0 <==> Schedulable(old(View()), Change(tg, rtPeriod, rtRuntime), busy))
      ensures View() == if err == 0 then Commit(old(View()), Change(tg, rtPeriod, rtRuntime)) else old(View())
    {
      err := RtSchedulable(Raw(), Change(tg, rtPeriod, rtRuntime), busy);
      if err == 0 { Store(tg, rtPeriod, rtRuntime); }
    }

    method Store(tg: nat, rtPeriod: nat, rtRuntime: nat)
      requires Valid() && tree.Has(tg)
      modifies this
      ensures Valid() && View() == Commit(old(View()), Change(tg, rtPeriod, rtRuntime))
    {
      period := period[tg := rtPeriod];
      runtime := runtime[tg := rtRuntime];
    }

    /** sched_group_set_rt_runtime: a negative value lifts the limit. */
    method SetRuntimeUs(tg: nat, us: int, busy: set<nat>) returns (err: int)
      requires Valid() && tree.Has(tg)
      modifies this
      ensures Valid() && (err == 0 <==> Schedulable(old(View()), Change(tg, old(period[tg]), UsToNs(us)), busy))
      ensures View() == if err == 0 then Commit(old(View()), Change(tg, old(period[tg]), UsToNs(us))) else old(View())
    {
      err := SetBandwidth(tg, period[tg], UsToNs(us), busy);
    }

    /** sched_group_set_rt_period: a period that is, or wraps to, zero is refused. */
    method SetPeriodUs(tg: nat, us: nat, busy: set<nat>) returns (err: int)
      requires Valid() && tree.Has(tg)
      modifies this
      ensures Valid()
      ensures var p := us * NSEC_PER_USEC % U64;
        && (err == 0 <==> p != 0 && Schedulable(old(View()), Change(tg, p, old(runtime[tg])), busy))
        && View() == if err == 0 then Commit(old(View()), Change(tg, p, old(runtime[tg]))) else old(View())
    {
      var rtPeriod := us * NSEC_PER_USEC % U64;
      if rtPeriod == 0 { return EINVAL; }
      err := SetBandwidth(tg, rtPeriod, runtime[tg], busy);
    }

    method Create(p: nat) returns (err: int)
      requires Valid() && tree.Has(p)
      modifies this
      ensures Valid() && View() == CreateGroup(old(View()), p)
      ensures err == if |old(tree).children[p]| == MAX_CHILDREN then ENOMEM else 0
    {
      ghost var after := CreateGroup(Raw(), p);
      if |tree.children[p]| == MAX_CHILDREN { return ENOMEM; }
      var g := tree.next;
      tree := Online(tree, p);
      period := period[g := defPeriod];
      runtime := runtime[g := 0];
      assert Raw() == after;
      return 0;
    }

    method Remove(g: nat)
      requires Valid() && g in tree.parent && tree.children[g] == []
      modifies this
      ensures Valid() && View() == RemoveGroup(old(View()), g)
    {
      ghost var after := RemoveGroup(Raw(), g);
      tree := Offline(tree, g);
      period := period - {g};
      runtime := runtime - {g};
      assert Raw() == after;
    }

    /** sched_rt_handler: the sysctls are written first and put back when a check fails. */
    method Handler(newPeriod: SysctlPeriod, newRuntime: SysctlRuntime, busy: set<nat>, dlBusy: bool) returns (ret: int)
      requires Valid()
      modifies this
      ensures Valid() && View() == RtHandler(old(View()), newPeriod, newRuntime, busy, dlBusy)
      ensures ret == 0 <==> (GlobalValid(newPeriod, newRuntime) && !dlBusy
        && Schedulable(old(View()).(sysPeriod := newPeriod, sysRuntime := newRuntime), Nothing, busy))
      ensures !GlobalValid(newPeriod, newRuntime) ==> ret == EINVAL
      ensures (GlobalValid(newPeriod, newRuntime) && dlBusy
        && Schedulable(old(View()).(sysPeriod := newPeriod, sysRuntime := newRuntime), Nothing, busy)) ==>
        ret == EBUSY
    {
      var oldPeriod, oldRuntime := sysPeriod, sysRuntime;
      sysPeriod, sysRuntime := newPeriod, newRuntime;
      ret := if GlobalValid(sysPeriod, sysRuntime) then 0 else EINVAL;
      if ret == 0 { ret := RtSchedulable(Raw(), Nothing, busy); }
      if ret == 0 && dlBusy { ret := EBUSY; }
      if ret == 0 {
        defPeriod := GlobalPeriod(sysPeriod);
      } else {
        sysPeriod, sysRuntime := oldPeriod, oldRuntime;
      }
    }
  }

  /** An accepted change sets the period and the runtime of that group and of no other. */
  lemma CommitIs(s: State, tg: nat, period: nat, runtime: nat)
    requires s.tree.Has(tg)
    ensures var s' := Commit(s, Change(tg, period, runtime));
      && s'.tree == s.tree && (s'.defPeriod, s'.sysPeriod, s'.sysRuntime) == (s.defPeriod, s.sysPeriod, s.sysRuntime)
      && s'.period[tg] == period && s'.runtime[tg] == runtime
      && forall g: nat :: s.tree.Has(g) && g != tg ==> s'.period[g] == s.period[g] && s'.runtime[g] == s.runtime[g]
  {
  }

  /** A limit accepted in microseconds reads back as written, unless its nanoseconds wrap. */
  lemma RuntimeReadsBack(s: State, tg: nat, us: int, s': State)
    requires s.tree.Has(tg)
    requires s' == Commit(s, Change(tg, s.period[tg], UsToNs(us)))
    ensures us < 0 ==> RuntimeUs(s', tg) == -1
    ensures us >= 0 ==> (RuntimeUs(s', tg) == us <==> us * NSEC_PER_USEC < U64)
  {
    assert s'.runtime[tg] == UsToNs(us);
    if us >= 0 { UsReadsBack(us); }
  }
}
