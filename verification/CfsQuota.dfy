/** Admission of CFS quotas over the task-group tree (assg4/core.c, CONFIG_CFS_BANDWIDTH). */
module CfsQuota {
  import opened Basics
  import opened Bandwidth
  import opened TaskGroupTree

  const MIN_PERIOD: nat := 1_000_000
  const MAX_PERIOD: nat := 1_000_000_000
  const DEFAULT_PERIOD: nat := 100_000_000
  const S64_MAX: nat := 0x7fff_ffff_ffff_ffff

  /** cfs_bandwidth of every group: period and quota in ns, and the cached hierarchical_quota. */
  datatype CfsState = CfsState(tree: Tree, period: map<nat, nat>, quota: map<nat, nat>, hq: map<nat, int>)

  ghost predicate Wf(s: CfsState) {
    && s.period.Keys == s.quota.Keys == s.tree.children.Keys
    && (forall g :: g in s.period ==> MIN_PERIOD <= s.period[g] <= MAX_PERIOD)
    && (forall g :: g in s.quota ==> MIN_PERIOD <= s.quota[g] <= RUNTIME_INF)
  }

  const BOOT: CfsState :=
    CfsState(Groups(1, map[], map[0 := []]), map[0 := DEFAULT_PERIOD], map[0 := RUNTIME_INF], map[])

  type State = s: CfsState | Wf(s) ghost witness BOOT

  // ---------------------------------------------------------------- the code of the check

  /** tg_get_cfs_quota: microseconds, -1 for no limit. */
  function GetQuota(s: State, g: nat): int
    requires s.tree.Has(g)
  {
    if s.quota[g] == RUNTIME_INF then -1 else s.quota[g] / NSEC_PER_USEC
  }

  /** tg_get_cfs_period: microseconds. */
  function GetPeriod(s: State, g: nat): nat
    requires s.tree.Has(g)
  {
    s.period[g] / NSEC_PER_USEC
  }

  function ToU64(x: int): nat
    requires -1 <= x < U64
  {
    if x < 0 then x + U64 else x
  }

  function ToS64(x: nat): int {
    if x <= S64_MAX then x else x - U64
  }

  /** Both conversions keep the number modulo 2^64, in two's complement. */
  lemma SignsWrap(x: int, y: nat)
    requires -1 <= x < U64 && y < U64
    ensures ToU64(x) == x % U64 && (ToS64(y) - y) % U64 == 0 && -0x8000_0000_0000_0000 <= ToS64(y) <= S64_MAX
  {
  }

  /** cfs_schedulable_data: the proposed change, in microseconds unless the quota is unlimited. */
  datatype Data = Data(tg: nat, period: nat, quota: nat)

  function MakeData(tg: nat, period: nat, quota: nat): Data {
    if quota != RUNTIME_INF then Data(tg, period / NSEC_PER_USEC, quota / NSEC_PER_USEC) else Data(tg, period, quota)
  }

  lemma GetQuotaFits(s: State, g: nat)
    requires s.tree.Has(g)
    ensures -1 <= GetQuota(s, g) < U64
  {
  }

  /** normalize_cfs_quota */
  function NormalizeCfsQuota(s: State, d: Data, g: nat): nat
    requires s.tree.Has(g)
  {
    GetQuotaFits(s, g);
    var period := if g == d.tg then d.period else GetPeriod(s, g);
    var quota := if g == d.tg then d.quota else ToU64(GetQuota(s, g));
    if quota == RUNTIME_INF then RUNTIME_INF else ToRatio(period, quota)
  }

  /** hierarchical_quota as last written; a new group's is zeroed memory. */
  function Cached(hq: map<nat, int>, g: nat): int {
    if g in hq then hq[g] else 0
  }

  /** tg_cfs_schedulable_down */
  function CfsDown(s: State, d: Data, g: nat, hq: map<nat, int>): (int, map<nat, int>)
    requires s.tree.Has(g)
  {
    if g == ROOT then (0, hq[g := ToS64(RUNTIME_INF)])
    else
      var quota, parentQuota := ToS64(NormalizeCfsQuota(s, d, g)), Cached(hq, s.tree.parent[g]);
      if quota == ToS64(RUNTIME_INF) then (0, hq[g := parentQuota])
      else if parentQuota != ToS64(RUNTIME_INF) && quota > parentQuota then (EINVAL, hq)
      else (0, hq[g := quota])
  }

  function Down(s: State, d: Data): Visitor<map<nat, int>> {
    (g: nat, hq) => if s.tree.Has(g) then CfsDown(s, d, g, hq) else (0, hq)
  }

  // ---------------------------------------------------------------- what it is meant to decide

  /** The group's own limit as a ratio; the root never has one. */
  function Limit(s: State, g: nat): Option<nat>
    requires s.tree.Has(g)
  {
    if g == ROOT || GetQuota(s, g) == -1 then None else Some(ToRatio(GetPeriod(s, g), GetQuota(s, g)))
  }

  /** No group is promised a larger share than any group above it. */
  ghost predicate Nested(s: State) {
    forall a: nat, g: nat :: s.tree.Has(a) && s.tree.Has(g) && IsAncestor(s.tree, a, g) ==>
      AtMost(Limit(s, g), Limit(s, a))
  }

  predicate AtMost(x: Option<nat>, y: Option<nat>) {
    x.Some? && y.Some? ==> x.value <= y.value
  }

  /** q is the smallest limit on the path from g to the root, or None when the path has no limit. */
  ghost predicate IsPathMinimum(s: State, g: nat, q: Option<nat>)
    requires s.tree.Has(g)
  {
    && (forall a: nat :: s.tree.Has(a) && IsAncestor(s.tree, a, g) && Limit(s, a).Some? ==>
        q.Some? && q.value <= Limit(s, a).value)
    && (q.Some? ==> exists a: nat :: s.tree.Has(a) && IsAncestor(s.tree, a, g) && Limit(s, a) == q)
  }

  /** hierarchical_quota stores no limit as -1. */
  function Encode(q: Option<nat>): int {
    if q.None? then -1 else q.value
  }

  // ---------------------------------------------------------------- nearest limit

  /** The limit of the nearest group at or above g that has one. */
  function Nearest(s: State, g: nat): Option<nat>
    requires s.tree.Has(g)
    decreases g
  {
    if g == ROOT then None
    else if Limit(s, g).Some? then Limit(s, g)
    else
      ParentIsSmaller(s.tree, g);
      Nearest(s, s.tree.parent[g])
  }

  /** What the visitor's comparison means for one group. */
  predicate Passes(s: State, g: nat)
    requires s.tree.Has(g)
  {
    g == ROOT || (ParentIsSmaller(s.tree, g); AtMost(Limit(s, g), Nearest(s, s.tree.parent[g])))
  }

  ghost predicate AllPass(s: State) {
    forall g: nat :: g in s.tree.children ==> Passes(s, g)
  }

  lemma {:induction false} NearestIsAttained(s: State, g: nat) returns (a: nat)
    requires s.tree.Has(g) && Nearest(s, g).Some?
    ensures s.tree.Has(a) && IsAncestor(s.tree, a, g) && Limit(s, a) == Nearest(s, g)
    decreases g
  {
    if Limit(s, g).Some? {
      a := g;
    } else {
      ParentIsSmaller(s.tree, g);
      a := NearestIsAttained(s, s.tree.parent[g]);
    }
  }

  lemma {:induction false} NearestIsLeast(s: State, g: nat, a: nat)
    requires AllPass(s) && s.tree.Has(g) && s.tree.Has(a) && IsAncestor(s.tree, a, g) && Limit(s, a).Some?
    ensures Nearest(s, g).Some? && Nearest(s, g).value <= Limit(s, a).value
    decreases g
  {
    if a == g {
    } else {
      ParentIsSmaller(s.tree, g);
      NearestIsLeast(s, s.tree.parent[g], a);
      assert Passes(s, g);
    }
  }

  /** Comparing each group with the nearest limit above it decides all the pairs at once. */
  lemma PairwiseIsNested(s: State)
    ensures AllPass(s) <==> Nested(s)
  {
    if AllPass(s) {
      forall a: nat, g: nat | s.tree.Has(a) && s.tree.Has(g) && IsAncestor(s.tree, a, g)
        ensures AtMost(Limit(s, g), Limit(s, a))
      {
        if Limit(s, a).Some? { NearestIsLeast(s, g, a); }
      }
    }
    if Nested(s) {
      forall g: nat | g in s.tree.children ensures Passes(s, g) { NestedPasses(s, g); }
    }
  }

  lemma NestedPasses(s: State, g: nat)
    requires Nested(s) && s.tree.Has(g)
    ensures Passes(s, g)
  {
    if g != ROOT {
      ParentIsSmaller(s.tree, g);
      if Nearest(s, s.tree.parent[g]).Some? {
        var a := NearestIsAttained(s, s.tree.parent[g]);
        assert IsAncestor(s.tree, a, g);
      }
    }
  }

  lemma NearestIsPathMinimum(s: State, g: nat)
    requires AllPass(s) && s.tree.Has(g)
    ensures IsPathMinimum(s, g, Nearest(s, g))
  {
    forall a: nat | s.tree.Has(a) && IsAncestor(s.tree, a, g) && Limit(s, a).Some?
      ensures Nearest(s, g).Some? && Nearest(s, g).value <= Limit(s, a).value
    {
      NearestIsLeast(s, g, a);
    }
    if Nearest(s, g).Some? { var a := NearestIsAttained(s, g); }
  }

  // ---------------------------------------------------------------- one call of the visitor

  predicate InRange(period: nat, quota: nat) {
    MIN_PERIOD <= period <= MAX_PERIOD && MIN_PERIOD <= quota <= RUNTIME_INF
  }

  function Commit(s: State, tg: nat, period: nat, quota: nat): State
    requires s.tree.Has(tg) && InRange(period, quota)
  {
    s.(period := s.period[tg := period], quota := s.quota[tg := quota])
  }

  /** The proposed view of every group is what its getters will return once the change is made. */
  lemma ProposalIsWhatIsReadBack(s: State, tg: nat, period: nat, quota: nat, g: nat)
    requires s.tree.Has(tg) && s.tree.Has(g) && InRange(period, quota)
    ensures var s1 := Commit(s, tg, period, quota);
      NormalizeCfsQuota(s, MakeData(tg, period, quota), g) ==
        if GetQuota(s1, g) == -1 then RUNTIME_INF else ToRatio(GetPeriod(s1, g), GetQuota(s1, g))
  {
  }

  /** A period of at least 1 ms keeps every ratio clear of the sign bit and of the no-limit mark. */
  lemma RatioIsPositiveS64(period: nat, quota: nat)
    requires period >= MIN_PERIOD / NSEC_PER_USEC && quota != RUNTIME_INF
    ensures ToRatio(period, quota) <= S64_MAX
  {
    var x := quota * BW_UNIT % U64;
    DivAtMost(x, period, S64_MAX) by {
      assert S64_MAX * period >= S64_MAX * 1000 by { MulCancel(1000, period, S64_MAX); }
    }
  }

  lemma DownMeans(s: State, tg: nat, period: nat, quota: nat, s1: State, g: nat, hq: map<nat, int>)
    requires s.tree.Has(tg) && s.tree.Has(g) && InRange(period, quota) && s1 == Commit(s, tg, period, quota)
    requires g != ROOT ==>
      s.tree.Has(s.tree.parent[g]) && Cached(hq, s.tree.parent[g]) == Encode(Nearest(s1, s.tree.parent[g]))
    ensures CfsDown(s, MakeData(tg, period, quota), g, hq) ==
      if Passes(s1, g) then (0, hq[g := Encode(Nearest(s1, g))]) else (EINVAL, hq)
  {
    ProposalIsWhatIsReadBack(s, tg, period, quota, g);
    if g != ROOT && GetQuota(s1, g) != -1 {
      RatioIsPositiveS64(GetPeriod(s1, g), GetQuota(s1, g));
    }
  }

  // ---------------------------------------------------------------- the whole walk

  datatype Change = Change(tg: nat, period: nat, quota: nat)

  predicate Sensible(s: State, c: Change) {
    s.tree.Has(c.tg) && InRange(c.period, c.quota)
  }

  function After(s: State, c: Change): State
    requires Sensible(s, c)
  {
    Commit(s, c.tg, c.period, c.quota)
  }

  function Visit(s: State, c: Change): Visitor<map<nat, int>> {
    Down(s, MakeData(c.tg, c.period, c.quota))
  }

  /** The groups in `part` pass and have their cache settled; the cache of the others is as before. */
  ghost predicate Settled(s1: State, part: nat -> bool, before: map<nat, int>, hq: map<nat, int>) {
    forall x: nat :: s1.tree.Has(x) ==>
      if part(x) then Passes(s1, x) && Cached(hq, x) == Encode(Nearest(s1, x)) else Cached(hq, x) == Cached(before, x)
  }

  /** What a piece of the walk may end in. */
  ghost predicate Outcome(s1: State, part: nat -> bool, before: map<nat, int>, r: (int, map<nat, int>)) {
    if r.0 == 0 then Settled(s1, part, before, r.1) else r.0 == EINVAL && !AllPass(s1)
  }

  ghost function Subtree(t: Tree, g: nat): nat -> bool {
    (x: nat) => IsAncestor(t, g, x)
  }

  ghost function BelowFrom(t: Tree, g: nat, k: nat): nat -> bool
    requires t.Has(g) && k <= |t.children[g]|
  {
    (x: nat) => t.Has(x) && Below(t, g, k, x) == 1
  }

  lemma {:induction false} WalkSubtree(s: State, c: Change, s1: State, g: nat, hq: map<nat, int>)
    requires Sensible(s, c) && s1 == After(s, c) && s.tree.Has(g)
    requires g != ROOT ==>
      s.tree.Has(s.tree.parent[g]) && Cached(hq, s.tree.parent[g]) == Encode(Nearest(s1, s.tree.parent[g]))
    ensures Outcome(s1, Subtree(s.tree, g), hq, RunCalls(Calls(s.tree, g), Visit(s, c), Nop(), hq))
    decreases s.tree.next - g, |s.tree.children[g]| + 1
  {
    var t, down := s.tree, Visit(s, c);
    var first, rest := CallsFrom(t, g, 0), [Leave(g)];
    DownMeans(s, c.tg, c.period, c.quota, s1, g, hq);
    RunHead(Enter(g), first + rest, down, Nop(), hq);
    assert [Enter(g)] + first + rest == [Enter(g)] + (first + rest);
    if Passes(s1, g) {
      var hq1 := hq[g := Encode(Nearest(s1, g))];
      WalkChildren(s, c, s1, g, 0, hq1);
      RunSplit(first, rest, down, Nop(), hq1);
      LastLeave(g, down, RunCalls(first, down, Nop(), hq1).1);
      if RunCalls(first, down, Nop(), hq1).0 == 0 {
        AddRoot(s1, g, hq, hq1, RunCalls(first, down, Nop(), hq1).1);
      }
    }
  }

  lemma LastLeave(g: nat, down: Visitor<map<nat, int>>, hq: map<nat, int>)
    ensures RunCalls([Leave(g)], down, Nop(), hq) == (0, hq)
  {
    RunHead(Leave(g), [], down, Nop(), hq);
    assert [Leave(g)] + [] == [Leave(g)];
  }

  lemma AddRoot(s1: State, g: nat, hq: map<nat, int>, hq1: map<nat, int>, hq2: map<nat, int>)
    requires s1.tree.Has(g) && Passes(s1, g) && hq1 == hq[g := Encode(Nearest(s1, g))]
    requires Settled(s1, BelowFrom(s1.tree, g, 0), hq1, hq2)
    ensures Settled(s1, Subtree(s1.tree, g), hq, hq2)
  {
    assert Below(s1.tree, g, 0, g) == 0;
  }

  lemma {:induction false} WalkChildren(s: State, c: Change, s1: State, g: nat, k: nat, hq: map<nat, int>)
    requires Sensible(s, c) && s1 == After(s, c) && s.tree.Has(g) && k <= |s.tree.children[g]|
    requires Cached(hq, g) == Encode(Nearest(s1, g))
    ensures Outcome(s1, BelowFrom(s.tree, g, k), hq, RunCalls(CallsFrom(s.tree, g, k), Visit(s, c), Nop(), hq))
    decreases s.tree.next - g, |s.tree.children[g]| - k
  {
    if k == |s.tree.children[g]| {
      NoneLeft(s1, g, hq);
    } else {
      var child := s.tree.children[g][k];
      IndexIs(s.tree, g, k);
      ParentIsSmaller(s.tree, child);
      WalkSubtree(s, c, s1, child, hq);
      var r := RunCalls(Calls(s.tree, child), Visit(s, c), Nop(), hq);
      ChildThenRest(s, c, g, k, child, hq, r);
      if r.0 == 0 {
        KeepsAbove(s1, child, g, hq, r.1);
        WalkChildren(s, c, s1, g, k + 1, r.1);
        AddChild(s1, g, k, child, hq, r.1, RunCalls(CallsFrom(s.tree, g, k + 1), Visit(s, c), Nop(), r.1));
      }
    }
  }

  lemma NoneLeft(s1: State, g: nat, hq: map<nat, int>)
    requires s1.tree.Has(g)
    ensures Settled(s1, BelowFrom(s1.tree, g, |s1.tree.children[g]|), hq, hq)
  {
  }

  lemma ChildThenRest(s: State, c: Change, g: nat, k: nat, child: nat, hq: map<nat, int>, r: (int, map<nat, int>))
    requires s.tree.Has(g) && k < |s.tree.children[g]| && child == s.tree.children[g][k] && s.tree.Has(child)
    requires r == RunCalls(Calls(s.tree, child), Visit(s, c), Nop(), hq)
    ensures RunCalls(CallsFrom(s.tree, g, k), Visit(s, c), Nop(), hq) ==
      if r.0 != 0 then r else RunCalls(CallsFrom(s.tree, g, k + 1), Visit(s, c), Nop(), r.1)
  {
    var a, b := Calls(s.tree, child), CallsFrom(s.tree, g, k + 1);
    assert CallsFrom(s.tree, g, k) == a + b;
    RunSplit(a, b, Visit(s, c), Nop(), hq);
  }

  lemma KeepsAbove(s1: State, child: nat, g: nat, hq: map<nat, int>, hq1: map<nat, int>)
    requires child in s1.tree.parent && s1.tree.parent[child] == g
    requires Settled(s1, Subtree(s1.tree, child), hq, hq1)
    ensures Cached(hq1, g) == Cached(hq, g)
  {
    ParentIsSmaller(s1.tree, child);
    if IsAncestor(s1.tree, child, g) { AncestorIsNotLarger(s1.tree, child, g); }
    assert !Subtree(s1.tree, child)(g);
  }

  lemma AddChild(s1: State, g: nat, k: nat, child: nat, hq: map<nat, int>, hq1: map<nat, int>,
                 r: (int, map<nat, int>))
    requires s1.tree.Has(g) && k < |s1.tree.children[g]| && child == s1.tree.children[g][k]
    requires Settled(s1, Subtree(s1.tree, child), hq, hq1)
    requires Outcome(s1, BelowFrom(s1.tree, g, k + 1), hq1, r)
    ensures Outcome(s1, BelowFrom(s1.tree, g, k), hq, r)
  {
    forall x: nat | s1.tree.Has(x)
      ensures BelowFrom(s1.tree, g, k)(x) <==> Subtree(s1.tree, child)(x) || BelowFrom(s1.tree, g, k + 1)(x)
    {
      BelowStep(s1.tree, g, k, x);
    }
  }

  /**
    The walk accepts exactly when the state after the change is nested, whatever the caches held before;
    on success every hierarchical_quota is the smallest limit on the path from the group to the root.
   */
  lemma WalkDecidesNesting(s: State, c: Change, hq: map<nat, int>)
    requires Sensible(s, c)
    ensures var s1, r := After(s, c), RunCalls(Calls(s.tree, ROOT), Visit(s, c), Nop(), hq);
      && r.0 == (if Nested(s1) then 0 else EINVAL)
      && (r.0 == 0 ==> forall g: nat :: g in s.tree.children ==>
          Cached(r.1, g) == Encode(Nearest(s1, g)) && IsPathMinimum(s1, g, Nearest(s1, g)))
  {
    var s1, r := After(s, c), RunCalls(Calls(s.tree, ROOT), Visit(s, c), Nop(), hq);
    WalkSubtree(s, c, s1, ROOT, hq);
    PairwiseIsNested(s1);
    if r.0 == 0 {
      forall g: nat | g in s.tree.children
        ensures Passes(s1, g) && Cached(r.1, g) == Encode(Nearest(s1, g))
      {
        RootIsAbove(s.tree, g);
        assert Subtree(s.tree, ROOT)(g);
      }
      forall g: nat | g in s.tree.children ensures IsPathMinimum(s1, g, Nearest(s1, g)) { NearestIsPathMinimum(s1, g); }
    }
  }

  /** __cfs_schedulable */
  method CfsSchedulable(s: State, tg: nat, period: nat, quota: nat) returns (ret: int, hq: map<nat, int>)
    requires Sensible(s, Change(tg, period, quota))
    ensures ret == if Nested(Commit(s, tg, period, quota)) then 0 else EINVAL
    ensures (ret, hq) == CfsWalk(s, Change(tg, period, quota))
  {
    var dataPeriod, dataQuota := period, quota;
    if quota != RUNTIME_INF {
      dataPeriod := dataPeriod / NSEC_PER_USEC;
      dataQuota := dataQuota / NSEC_PER_USEC;
    }
    ret, hq := WalkTgTreeFrom(s.tree, ROOT, Down(s, Data(tg, dataPeriod, dataQuota)), Nop(), s.hq);
    WalkDecidesNesting(s, Change(tg, period, quota), s.hq);
  }

  function Decode(q: int): Option<nat> {
    if q < 0 then None else Some(q)
  }

  function CfsWalk(s: State, c: Change): (int, map<nat, int>) {
    RunCalls(Calls(s.tree, ROOT), Visit(s, c), Nop(), s.hq)
  }

  // ---------------------------------------------------------------- the operations and their runs

  /** tg_set_cfs_bandwidth: a rejected walk changes nothing but the caches. */
  function SetCfs(s: State, tg: nat, period: nat, quota: nat): (int, State)
    requires s.tree.Has(tg)
  {
    if tg == ROOT || !InRange(period, quota) then (EINVAL, s)
    else
      var (ret, hq) := CfsWalk(s, Change(tg, period, quota));
      (ret, if ret != 0 then s.(hq := hq) else Commit(s, tg, period, quota).(hq := hq))
  }

  /** A new group has the default period and no limit. */
  function CreateGroup(s: State, p: nat): State
    requires s.tree.Has(p)
  {
    CreatedIsWf(s, Online(s.tree, p));
    Created(s, Online(s.tree, p))
  }

  function Created(s: State, t: Tree): CfsState {
    s.(tree := t, period := s.period[s.tree.next := DEFAULT_PERIOD], quota := s.quota[s.tree.next := RUNTIME_INF])
  }

  lemma CreatedIsWf(s: State, t: Tree)
    requires t.children.Keys == s.tree.children.Keys + {s.tree.next}
    ensures Wf(Created(s, t))
  {
  }

  function RemoveGroup(s: State, g: nat): State
    requires g in s.tree.parent && s.tree.children[g] == []
  {
    s.(tree := Offline(s.tree, g), period := s.period - {g}, quota := s.quota - {g}, hq := s.hq - {g})
  }

  datatype Op = Set(tg: nat, period: nat, quota: nat) | Create(p: nat) | Remove(g: nat)

  predicate Enabled(s: State, op: Op) {
    match op
    case Set(tg, period, quota) => s.tree.Has(tg)
    case Create(p) => s.tree.Has(p)
    case Remove(g) => g in s.tree.parent && s.tree.children[g] == []
  }

  function Do(s: State, op: Op): State
    requires Enabled(s, op)
  {
    match op
    case Set(tg, period, quota) => SetCfs(s, tg, period, quota).1
    case Create(p) => CreateGroup(s, p)
    case Remove(g) => RemoveGroup(s, g)
  }

  ghost predicate Init(s: State) {
    s == BOOT
  }

  ghost predicate Next(s: State, s': State) {
    exists op :: Enabled(s, op) && s' == Do(s, op)
  }

  lemma CachesDoNotMatter(s: State, hq: map<nat, int>)
    requires Nested(s)
    ensures Nested(s.(hq := hq))
  {
    forall g: nat | s.tree.Has(g) ensures Limit(s.(hq := hq), g) == Limit(s, g) {}
  }

  lemma {:induction false} OnlineKeepsPaths(t: Tree, p: nat, a: nat, g: nat)
    requires t.Has(p) && t.Has(g)
    ensures IsAncestor(Online(t, p), a, g) == IsAncestor(t, a, g)
    decreases g
  {
    if g !in t.parent {
    } else {
      ParentIsSmaller(t, g);
      OnlineKeepsPaths(t, p, a, t.parent[g]);
    }
  }

  lemma {:induction false} OfflineKeepsPaths(t: Tree, x: nat, a: nat, g: nat)
    requires x in t.parent && t.children[x] == [] && t.Has(g) && g != x
    ensures IsAncestor(Offline(t, x), a, g) == IsAncestor(t, a, g)
    decreases g
  {
    if g !in t.parent {
    } else {
      ParentIsSmaller(t, g);
      var k := t.IndexOf(g);
      OfflineKeepsPaths(t, x, a, t.parent[g]);
    }
  }

  lemma CreatedLimit(s: State, p: nat, s': State, g: nat)
    requires s.tree.Has(p) && s' == CreateGroup(s, p) && s'.tree.Has(g)
    ensures g != s.tree.next ==> s.tree.Has(g)
    ensures Limit(s', g) == if g == s.tree.next then None else Limit(s, g)
  {
  }

  lemma CreatedPair(s: State, p: nat, s': State, a: nat, g: nat)
    requires s.tree.Has(p) && Nested(s) && s' == CreateGroup(s, p)
    requires s'.tree.Has(a) && s'.tree.Has(g) && IsAncestor(s'.tree, a, g)
    ensures AtMost(Limit(s', g), Limit(s', a))
  {
    CreatedLimit(s, p, s', a);
    CreatedLimit(s, p, s', g);
    if a != s.tree.next && g != s.tree.next { OnlineKeepsPaths(s.tree, p, a, g); }
  }

  lemma CreateKeepsNesting(s: State, p: nat)
    requires s.tree.Has(p) && Nested(s)
    ensures Nested(CreateGroup(s, p))
  {
    var s' := CreateGroup(s, p);
    forall a: nat, g: nat | s'.tree.Has(a) && s'.tree.Has(g) && IsAncestor(s'.tree, a, g)
      ensures AtMost(Limit(s', g), Limit(s', a))
    {
      CreatedPair(s, p, s', a, g);
    }
  }

  lemma RemoveKeepsNesting(s: State, x: nat)
    requires x in s.tree.parent && s.tree.children[x] == [] && Nested(s)
    ensures Nested(RemoveGroup(s, x))
  {
    var s' := RemoveGroup(s, x);
    forall a: nat, g: nat | s'.tree.Has(a) && s'.tree.Has(g) && IsAncestor(s'.tree, a, g)
      ensures AtMost(Limit(s', g), Limit(s', a))
    {
      OfflineKeepsPaths(s.tree, x, a, g);
    }
  }

  /** A change is accepted exactly when its limits are sensible and the result is nested. */
  lemma SetCfsAccepts(s: State, tg: nat, period: nat, quota: nat)
    requires s.tree.Has(tg)
    ensures SetCfs(s, tg, period, quota).0 ==
      if tg != ROOT && InRange(period, quota) && Nested(Commit(s, tg, period, quota)) then 0 else EINVAL
  {
    if InRange(period, quota) { WalkDecidesNesting(s, Change(tg, period, quota), s.hq); }
  }

  lemma SetKeepsNesting(s: State, tg: nat, period: nat, quota: nat)
    requires s.tree.Has(tg) && Nested(s)
    ensures Nested(SetCfs(s, tg, period, quota).1)
  {
    SetCfsAccepts(s, tg, period, quota);
    if tg != ROOT && InRange(period, quota) {
      var hq := CfsWalk(s, Change(tg, period, quota)).1;
      if Nested(Commit(s, tg, period, quota)) {
        CachesDoNotMatter(Commit(s, tg, period, quota), hq);
      } else {
        CachesDoNotMatter(s, hq);
      }
    }
  }

  /** After any run, accepted and rejected changes alike, no group may use more than any group above it. */
  lemma QuotasStayNested(r: seq<State>, k: nat)
    requires IsRun(Init, Next, r) && k < |r|
    ensures Nested(r[k])
  {
    forall s: State, s': State | Nested(s) && Next(s, s') ensures Nested(s') {
      var op :| Enabled(s, op) && s' == Do(s, op);
      match op
      case Set(tg, period, quota) => SetKeepsNesting(s, tg, period, quota);
      case Create(p) => CreateKeepsNesting(s, p);
      case Remove(g) => RemoveKeepsNesting(s, g);
    }
    RunInvariant(Init, Next, s => Nested(s), r, k);
  }

  // ---------------------------------------------------------------- true quotients

  /** The group's limit as it would be without wrap-around. */
  function TrueLimit(s: State, g: nat): Option<nat>
    requires s.tree.Has(g)
  {
    if g == ROOT || GetQuota(s, g) == -1 then None else Some(TrueRatio(GetPeriod(s, g), GetQuota(s, g)))
  }

  /** No quota, in microseconds, is so large that its shift wraps. */
  predicate AllExact(s: State) {
    forall g: nat :: g in s.tree.children ==> GetQuota(s, g) < EXACT_LIMIT
  }

  /** In every reachable state whose quotas are below 2^44 us the true quotients are nested. */
  lemma TrueLimitsNested(r: seq<State>, k: nat, a: nat, g: nat)
    requires IsRun(Init, Next, r) && k < |r| && AllExact(r[k])
    requires r[k].tree.Has(a) && r[k].tree.Has(g) && IsAncestor(r[k].tree, a, g)
    ensures AtMost(TrueLimit(r[k], g), TrueLimit(r[k], a))
  {
    QuotasStayNested(r, k);
    LimitIsTrue(r[k], a);
    LimitIsTrue(r[k], g);
  }

  lemma LimitIsTrue(s: State, g: nat)
    requires AllExact(s) && s.tree.Has(g)
    ensures Limit(s, g) == TrueLimit(s, g)
  {
    if GetQuota(s, g) != -1 { ExactBelow(GetPeriod(s, g), GetQuota(s, g)); }
  }

  /** Half a CPU for a group, and 2^44 us of quota for the group below it, both with the default period of 100 ms. */
  const HALF: nat := 50_000_000
  const HUGE: nat := EXACT_LIMIT * 1000

  predicate IsChainOfTwo(s: State) {
    s.tree.children.Keys == {ROOT, 1, 2} && s.tree.parent == map[1 := ROOT, 2 := 1]
  }

  /** The larger quota is counted as nothing and accepted, although it truly exceeds the one above it. */
  lemma WrapBreaksNesting(s: State)
    requires IsChainOfTwo(s) && s.quota[1] == HALF && s.period[1] == DEFAULT_PERIOD
    ensures SetCfs(s, 2, DEFAULT_PERIOD, HUGE).0 == 0
    ensures var s' := SetCfs(s, 2, DEFAULT_PERIOD, HUGE).1;
      s'.tree == s.tree && TrueLimit(s', 1).Some? && TrueLimit(s', 2).Some?
      && TrueLimit(s', 2).value > TrueLimit(s', 1).value
  {
    var s1 := Commit(s, 2, DEFAULT_PERIOD, HUGE);
    HugeCountsAsNothing(s1);
    NothingIsNested(s1);
    SetCfsAccepts(s, 2, DEFAULT_PERIOD, HUGE);
  }

  lemma NothingIsNested(s: State)
    requires IsChainOfTwo(s) && Limit(s, 2) == Some(0)
    ensures Nested(s)
  {
    forall a: nat, g: nat | s.tree.Has(a) && s.tree.Has(g) && IsAncestor(s.tree, a, g)
      ensures AtMost(Limit(s, g), Limit(s, a))
    {
      AncestorIsNotLarger(s.tree, a, g);
      assert a == ROOT || a == 1 || a == 2;
    }
  }

  lemma HugeCountsAsNothing(s: State)
    requires IsChainOfTwo(s) && s.quota[1] == HALF && s.period[1] == DEFAULT_PERIOD
    requires s.quota[2] == HUGE && s.period[2] == DEFAULT_PERIOD
    ensures Limit(s, 2) == Some(0) && TrueLimit(s, 2) == Some(EXACT_LIMIT * BW_UNIT / 100_000)
    ensures Limit(s, 1) == TrueLimit(s, 1) == Some(BW_UNIT / 2)
  {
  }

  lemma CreateIsNext(s: State, p: nat)
    requires s.tree.Has(p)
    ensures Next(s, CreateGroup(s, p))
  {
    assert Enabled(s, Create(p)) && CreateGroup(s, p) == Do(s, Create(p));
  }

  lemma SetIsNext(s: State, tg: nat, period: nat, quota: nat)
    requires s.tree.Has(tg)
    ensures Next(s, SetCfs(s, tg, period, quota).1)
  {
    assert Enabled(s, Set(tg, period, quota)) && SetCfs(s, tg, period, quota).1 == Do(s, Set(tg, period, quota));
  }

  /** With one group below the other, giving the upper one half a CPU is accepted. */
  lemma HalfIsAccepted(s: State)
    requires IsChainOfTwo(s) && s.quota[1] == s.quota[2] == RUNTIME_INF
    ensures SetCfs(s, 1, DEFAULT_PERIOD, HALF).0 == 0
  {
    var s1 := Commit(s, 1, DEFAULT_PERIOD, HALF);
    forall a: nat, g: nat | s1.tree.Has(a) && s1.tree.Has(g) && IsAncestor(s1.tree, a, g)
      ensures AtMost(Limit(s1, g), Limit(s1, a))
    {
      assert a == ROOT || a == 1 || a == 2;
      assert g == ROOT || g == 1 || g == 2;
    }
    SetCfsAccepts(s, 1, DEFAULT_PERIOD, HALF);
  }

  lemma FirstGroup(s0: State) returns (s1: State)
    requires Init(s0)
    ensures s0.tree.Has(ROOT) && s1 == CreateGroup(s0, ROOT)
    ensures s1.tree.children.Keys == {ROOT, 1} && s1.tree.parent == map[1 := ROOT] && s1.tree.next == 2
    ensures s1.quota[1] == RUNTIME_INF
  {
    s1 := CreateGroup(s0, ROOT);
  }

  lemma SecondGroup(s1: State) returns (s2: State)
    requires s1.tree.children.Keys == {ROOT, 1} && s1.tree.parent == map[1 := ROOT] && s1.tree.next == 2
    requires s1.quota[1] == RUNTIME_INF
    ensures s2 == CreateGroup(s1, 1) && IsChainOfTwo(s2) && s2.quota[1] == s2.quota[2] == RUNTIME_INF
  {
    s2 := CreateGroup(s1, 1);
  }

  lemma HalfGives(s: State, s': State)
    requires IsChainOfTwo(s) && s.quota[1] == s.quota[2] == RUNTIME_INF && s' == SetCfs(s, 1, DEFAULT_PERIOD, HALF).1
    ensures IsChainOfTwo(s') && s'.quota[1] == HALF && s'.period[1] == DEFAULT_PERIOD
  {
    HalfIsAccepted(s);
  }

  lemma WrapRun(r: seq<State>, s3: State, s4: State)
    requires IsRun(Init, Next, r) && IsChainOfTwo(r[|r| - 1]) && s3 == SetCfs(r[|r| - 1], 1, DEFAULT_PERIOD, HALF).1
    requires IsChainOfTwo(s3) && s4 == SetCfs(s3, 2, DEFAULT_PERIOD, HUGE).1
    ensures IsRun(Init, Next, r + [s3] + [s4])
  {
    SetIsNext(r[|r| - 1], 1, DEFAULT_PERIOD, HALF);
    ExtendRun(Init, Next, r, s3);
    SetIsNext(s3, 2, DEFAULT_PERIOD, HUGE);
    ExtendRun(Init, Next, r + [s3], s4);
  }

  lemma CreationRun(s0: State, s1: State, s2: State)
    requires Init(s0) && s0.tree.Has(ROOT) && s1 == CreateGroup(s0, ROOT) && s1.tree.Has(1) && s2 == CreateGroup(s1, 1)
    ensures IsRun(Init, Next, [s0] + [s1] + [s2])
  {
    CreateIsNext(s0, ROOT);
    ExtendRun(Init, Next, [s0], s1);
    CreateIsNext(s1, 1);
    ExtendRun(Init, Next, [s0] + [s1], s2);
  }

  lemma TwoGroupsReachable(s0: State) returns (r: seq<State>)
    requires Init(s0)
    ensures IsRun(Init, Next, r) && IsChainOfTwo(r[|r| - 1])
    ensures r[|r| - 1].quota[1] == r[|r| - 1].quota[2] == RUNTIME_INF
  {
    var s1 := FirstGroup(s0);
    var s2 := SecondGroup(s1);
    CreationRun(s0, s1, s2);
    r := [s0] + [s1] + [s2];
  }

  /** Such a state is reached: two groups are created, and then given their quotas. */
  lemma WrapIsReachable() returns (r: seq<State>, s: State)
    ensures IsRun(Init, Next, r + [s])
    ensures IsChainOfTwo(s) && TrueLimit(s, 1).Some? && TrueLimit(s, 2).Some?
    ensures TrueLimit(s, 2).value > TrueLimit(s, 1).value
  {
    var r0 := TwoGroupsReachable(BOOT);
    var s3 := SetCfs(r0[|r0| - 1], 1, DEFAULT_PERIOD, HALF).1;
    HalfGives(r0[|r0| - 1], s3);
    s := SetCfs(s3, 2, DEFAULT_PERIOD, HUGE).1;
    WrapBreaksNesting(s3);
    WrapRun(r0, s3, s);
    r := r0 + [s3];
  }

  // ---------------------------------------------------------------- the controls, updated in place

  class CfsControl {
    var tree: Tree
    var period: map<nat, nat>
    var quota: map<nat, nat>
    var hq: map<nat, int>

    function Raw(): CfsState
      reads this
    {
      CfsState(tree, period, quota, hq)
    }

    ghost predicate Valid()
      reads this
    {
      Wf(Raw())
    }

    ghost function View(): State
      reads this
      requires Valid()
    {
      Raw()
    }

    constructor ()
      ensures Valid() && View() == BOOT
    {
      tree, period, quota, hq := BOOT.tree, BOOT.period, BOOT.quota, BOOT.hq;
    }

    /** tg_set_cfs_bandwidth */
    method SetBandwidth(tg: nat, newPeriod: nat, newQuota: nat) returns (ret: int)
      requires Valid() && tree.Has(tg) && newQuota < U64
      modifies this
      ensures Valid() && (ret, View()) == SetCfs(old(View()), tg, newPeriod, newQuota)
    {
      if tg == ROOT { return EINVAL; }
      if newQuota < MIN_PERIOD || newPeriod < MIN_PERIOD { return EINVAL; }
      if newPeriod > MAX_PERIOD { return EINVAL; }
      ret, hq := CfsSchedulable(Raw(), tg, newPeriod, newQuota);
      if ret == 0 { Store(tg, newPeriod, newQuota); }
    }

    method Store(tg: nat, newPeriod: nat, newQuota: nat)
      requires Valid() && tree.Has(tg) && InRange(newPeriod, newQuota)
      modifies this
      ensures Valid() && View() == Commit(old(View()), tg, newPeriod, newQuota)
    {
      period := period[tg := newPeriod];
      quota := quota[tg := newQuota];
    }

    /** tg_set_cfs_quota: a negative value lifts the limit. */
    method SetQuotaUs(tg: nat, us: int) returns (ret: int)
      requires Valid() && tree.Has(tg)
      modifies this
      ensures Valid() && (ret, View()) == SetCfs(old(View()), tg, old(period[tg]), UsToNs(us))
    {
      ret := SetBandwidth(tg, period[tg], UsToNs(us));
    }

    /** tg_set_cfs_period */
    method SetPeriodUs(tg: nat, us: nat) returns (ret: int)
      requires Valid() && tree.Has(tg)
      modifies this
      ensures Valid() && (ret, View()) == SetCfs(old(View()), tg, us * NSEC_PER_USEC % U64, old(quota[tg]))
    {
      ret := SetBandwidth(tg, us * NSEC_PER_USEC % U64, quota[tg]);
    }

    method Create(p: nat)
      requires Valid() && tree.Has(p)
      modifies this
      ensures Valid() && View() == CreateGroup(old(View()), p)
    {
      ghost var after := CreateGroup(Raw(), p);
      var g := tree.next;
      tree := Online(tree, p);
      period := period[g := DEFAULT_PERIOD];
      quota := quota[g := RUNTIME_INF];
      assert Raw() == after;
    }

    method Remove(g: nat)
      requires Valid() && g in tree.parent && tree.children[g] == []
      modifies this
      ensures Valid() && View() == RemoveGroup(old(View()), g)
    {
      ghost var after := RemoveGroup(Raw(), g);
      tree := Offline(tree, g);
      period := period - {g};
      quota := quota - {g};
      hq := hq - {g};
      assert Raw() == after;
    }
  }

  /** What a call may ask for: a period from 1 ms to 1 s, and a quota of at least 1 ms. */
  lemma InRangeIff(period: nat, quota: nat)
    ensures InRange(period, quota) <==>
      1_000_000 <= period <= 1_000_000_000 && 1_000_000 <= quota <= 0xffff_ffff_ffff_ffff
  {
  }

  /**
    An accepted call sets the period and the quota of its group, and a refused one those of none; the caches are
    left as the walk has written them, and no walk is made for the root or for limits out of range.
   */
  lemma SetCfsIsCarriedOut(s: State, tg: nat, period: nat, quota: nat, g: nat)
    requires s.tree.Has(tg) && s.tree.Has(g)
    ensures var (ret, s') := SetCfs(s, tg, period, quota);
      && s'.tree == s.tree && (ret == 0 || ret == EINVAL)
      && s'.period[g] == (if ret == 0 && g == tg then period else s.period[g])
      && s'.quota[g] == (if ret == 0 && g == tg then quota else s.quota[g])
      && s'.hq == (if tg != ROOT && InRange(period, quota) then CfsWalk(s, Change(tg, period, quota)).1 else s.hq)
  {
    SetCfsAccepts(s, tg, period, quota);
  }

  lemma CreatedIs(s: State, t: Tree)
    ensures var c := Created(s, t);
      && c.tree == t && c.hq == s.hq && c.period[s.tree.next] == 100_000_000 && c.quota[s.tree.next] == RUNTIME_INF
      && (forall x: nat :: x in s.period && x != s.tree.next ==> x in c.period && c.period[x] == s.period[x])
      && (forall x: nat :: x in s.quota && x != s.tree.next ==> x in c.quota && c.quota[x] == s.quota[x])
  {
  }

  /** A new group comes first among its siblings, with 100 ms and no quota; nothing else changes. */
  lemma CreateIs(s: State, p: nat, s': State, g: nat)
    requires s.tree.Has(p) && s' == CreateGroup(s, p) && g == s.tree.next
    ensures s'.tree == Online(s.tree, p) && s'.tree.Has(g) && !s.tree.Has(g)
    ensures s'.tree.children[p] == [g] + s.tree.children[p] && s'.period[g] == 100_000_000 && GetQuota(s', g) == -1
    ensures forall x: nat :: s.tree.Has(x) ==> s'.period[x] == s.period[x] && s'.quota[x] == s.quota[x]
    ensures s'.hq == s.hq
  {
    OnlineLists(s.tree, p, p);
    CreatedIs(s, Online(s.tree, p));
    assert forall x: nat :: s.tree.Has(x) ==> x in s.period && x in s.quota && x != g;
  }

  /** Removing a group touches no other. */
  lemma RemoveIs(s: State, g: nat, s': State, x: nat)
    requires g in s.tree.parent && s.tree.children[g] == [] && s' == RemoveGroup(s, g) && s.tree.Has(x)
    ensures x == g ==> !s'.tree.Has(x) && Cached(s'.hq, x) == 0
    ensures x != g ==> s'.tree.Has(x) && s'.period[x] == s.period[x] && s'.quota[x] == s.quota[x]
    ensures x != g ==> Cached(s'.hq, x) == Cached(s.hq, x)
  {
  }

  lemma SameMinimum(s: State, s': State, g: nat, q: Option<nat>)
    requires s.tree == s'.tree && s.period == s'.period && s.quota == s'.quota
    requires s.tree.Has(g) && IsPathMinimum(s, g, q)
    ensures IsPathMinimum(s', g, q)
  {
    forall a: nat | s.tree.Has(a) ensures Limit(s', a) == Limit(s, a) {}
    if q.Some? {
      var a: nat :| s.tree.Has(a) && IsAncestor(s.tree, a, g) && Limit(s, a) == q;
      assert s'.tree.Has(a) && IsAncestor(s'.tree, a, g) && Limit(s', a) == q;
    }
  }

  lemma WalkSetsMinimum(s: State, c: Change, g: nat)
    requires Sensible(s, c) && s.tree.Has(g) && CfsWalk(s, c).0 == 0
    ensures Cached(CfsWalk(s, c).1, g) == Encode(Nearest(After(s, c), g))
    ensures IsPathMinimum(After(s, c), g, Nearest(After(s, c), g))
  {
    WalkDecidesNesting(s, c, s.hq);
  }

  /** An accepted change leaves in every hierarchical_quota the smallest limit on the way to the root. */
  lemma AcceptedCachesAreMinima(s: State, tg: nat, period: nat, quota: nat, s': State, g: nat)
    requires s.tree.Has(tg) && SetCfs(s, tg, period, quota) == (0, s') && s.tree.Has(g)
    ensures IsPathMinimum(s', g, Decode(Cached(s'.hq, g)))
  {
    var c := Change(tg, period, quota);
    WalkSetsMinimum(s, c, g);
    SameMinimum(After(s, c), s', g, Nearest(After(s, c), g));
  }

  /** An accepted quota reads back as it was written exactly when its nanoseconds do not wrap. */
  lemma QuotaReadsBack(s: State, tg: nat, us: int, s': State)
    requires s.tree.Has(tg) && SetCfs(s, tg, s.period[tg], UsToNs(us)) == (0, s')
    ensures GetQuota(s', tg) == (if us < 0 then -1 else us) <==> us * NSEC_PER_USEC < U64
    ensures GetPeriod(s', tg) == GetPeriod(s, tg)
  {
    SetCfsAccepts(s, tg, s.period[tg], UsToNs(us));
    assert s'.quota[tg] == UsToNs(us) && s'.period[tg] == s.period[tg];
    if us >= 0 { UsReadsBack(us); }
  }

  /** So does an accepted period. */
  lemma PeriodReadsBack(s: State, tg: nat, us: nat, s': State)
    requires s.tree.Has(tg) && us * NSEC_PER_USEC < U64
    requires SetCfs(s, tg, us * NSEC_PER_USEC, s.quota[tg]) == (0, s')
    ensures GetPeriod(s', tg) == us && GetQuota(s', tg) == GetQuota(s, tg)
  {
    SetCfsIsCarriedOut(s, tg, us * NSEC_PER_USEC, s.quota[tg], tg);
  }
}
