/** Attaching a CPU to its chain of scheduling domains (assg4/core.c, cpu_attach_domain). */
module DomainChain {
  import opened Basics

  datatype Flag =
    | LoadBalance | BalanceNewIdle | BalanceFork | BalanceExec | ShareCpuCapacity | SharePkgResources
    | SharePowerDomain | PreferSibling | WakeAffine | BalanceWake | Serialize | Overlap | Numa | AsymPacking

  /** The flags that need at least two groups. */
  const GROUP_FLAGS: set<Flag> := {
    LoadBalance, BalanceNewIdle, BalanceFork, BalanceExec, ShareCpuCapacity, SharePkgResources, SharePowerDomain
  }

  /** A domain as a value: its span, whether its ring has several groups, its flags. */
  datatype Desc = Desc(span: set<nat>, many: bool, flags: set<Flag>)

  /** sd_degenerate */
  predicate Degenerate(d: Desc) {
    if |d.span| == 1 then true
    else if d.flags * GROUP_FLAGS != {} && d.many then false
    else WakeAffine !in d.flags
  }

  /** sd_parent_degenerate; `oneNode` is nr_node_ids == 1. */
  predicate ParentDegenerate(d: Desc, parent: Desc, oneNode: bool) {
    if Degenerate(parent) then true
    else if d.span != parent.span then false
    else ParentFlags(parent, oneNode) - d.flags == {}
  }

  function ParentFlags(parent: Desc, oneNode: bool): set<Flag> {
    if parent.many then parent.flags
    else parent.flags - GROUP_FLAGS - {PreferSibling} - if oneNode then {Serialize} else {}
  }

  /** SD_PREFER_SIBLING goes down from a parent that is removed. */
  function Inherit(d: Desc, parent: Desc): Desc {
    d.(flags := d.flags + (if PreferSibling in parent.flags then {PreferSibling} else {}))
  }

  /** The whole pass over a chain, base first. */
  function Collapse(ds: seq<Desc>, oneNode: bool): seq<Desc>
    decreases |ds|
  {
    if |ds| < 2 then ds
    else if ParentDegenerate(ds[0], ds[1], oneNode) then Collapse([Inherit(ds[0], ds[1])] + ds[2..], oneNode)
    else [ds[0]] + Collapse(ds[1..], oneNode)
  }

  /** A degenerate base goes last. */
  function DropBase(ds: seq<Desc>): seq<Desc> {
    if ds != [] && Degenerate(ds[0]) then ds[1..] else ds
  }

  predicate NoPairLeft(ds: seq<Desc>, oneNode: bool) {
    forall k :: 0 <= k < |ds| - 1 ==> !ParentDegenerate(ds[k], ds[k + 1], oneNode)
  }

  /** d with SD_PREFER_SIBLING possibly added. */
  predicate Grew(d: Desc, d': Desc) {
    d'.span == d.span && d'.many == d.many && (d'.flags == d.flags || d'.flags == d.flags + {PreferSibling})
  }

  /** A parent that gains SD_PREFER_SIBLING does not become removable. */
  lemma GrowingParentStays(d: Desc, parent: Desc, parent': Desc, oneNode: bool)
    requires Grew(parent, parent') && !ParentDegenerate(d, parent, oneNode)
    ensures !ParentDegenerate(d, parent', oneNode)
  {
    assert parent'.flags * GROUP_FLAGS == parent.flags * GROUP_FLAGS;
    assert ParentFlags(parent, oneNode) <= ParentFlags(parent', oneNode);
    if d.span == parent.span {
      var f :| f in ParentFlags(parent, oneNode) - d.flags;
      assert f in ParentFlags(parent', oneNode) - d.flags;
    }
  }

  lemma {:induction false} CollapseBase(ds: seq<Desc>, oneNode: bool)
    requires ds != []
    ensures Collapse(ds, oneNode) != [] && Grew(ds[0], Collapse(ds, oneNode)[0])
    decreases |ds|
  {
    if |ds| >= 2 && ParentDegenerate(ds[0], ds[1], oneNode) {
      CollapseBase([Inherit(ds[0], ds[1])] + ds[2..], oneNode);
    }
  }

  /** After the pass no domain is removable given the one below it, flags added on the way included. */
  lemma {:induction false} CollapseLeavesNoPair(ds: seq<Desc>, oneNode: bool)
    ensures NoPairLeft(Collapse(ds, oneNode), oneNode)
    decreases |ds|
  {
    if |ds| >= 2 {
      if ParentDegenerate(ds[0], ds[1], oneNode) {
        CollapseLeavesNoPair([Inherit(ds[0], ds[1])] + ds[2..], oneNode);
      } else {
        var rest := Collapse(ds[1..], oneNode);
        CollapseLeavesNoPair(ds[1..], oneNode);
        CollapseBase(ds[1..], oneNode);
        GrowingParentStays(ds[0], ds[1], rest[0], oneNode);
        var all := [ds[0]] + rest;
        forall k | 0 <= k < |all| - 1 ensures !ParentDegenerate(all[k], all[k + 1], oneNode) {
          if k > 0 { assert all[k] == rest[k - 1] && all[k + 1] == rest[k - 1 + 1]; }
        }
      }
    }
  }

  /** What is attached holds no degenerate domain at all, the base included. */
  lemma NothingDegenerateAttached(ds: seq<Desc>, oneNode: bool)
    ensures var r := DropBase(Collapse(ds, oneNode));
      NoPairLeft(r, oneNode) && forall k :: 0 <= k < |r| ==> !Degenerate(r[k])
  {
    CollapseLeavesNoPair(ds, oneNode);
    var c := Collapse(ds, oneNode);
    forall k | 0 < k < |c| ensures !Degenerate(c[k]) {
      assert !ParentDegenerate(c[k - 1], c[k - 1 + 1], oneNode);
    }
    var r := DropBase(c);
    forall k | 0 <= k < |r| - 1 ensures !ParentDegenerate(r[k], r[k + 1], oneNode) {
      if r != c { assert r[k] == c[k + 1] && r[k + 1] == c[k + 1 + 1]; }
    }
  }

  /** A pass over its own result changes nothing. */
  lemma {:induction false} CollapseIsStable(ds: seq<Desc>, oneNode: bool)
    requires NoPairLeft(ds, oneNode)
    ensures Collapse(ds, oneNode) == ds
    decreases |ds|
  {
    if |ds| < 2 {
    } else {
      assert !ParentDegenerate(ds[0], ds[0 + 1], oneNode);
      forall k | 0 <= k < |ds[1..]| - 1 ensures !ParentDegenerate(ds[1..][k], ds[1..][k + 1], oneNode) {
        assert ds[1..][k] == ds[k + 1] && ds[1..][k + 1] == ds[k + 1 + 1];
      }
      CollapseIsStable(ds[1..], oneNode);
    }
  }

  lemma SubsetOfSingleton<T>(a: set<T>, b: set<T>)
    requires a != {} && a <= b && |b| == 1
    ensures a == b
  {
    var x :| x in a;
    assert |b - {x}| == 0;
    assert b == {x};
  }

  // ---------------------------------------------------------------- chains as they are built

  /** The flags a description of the topology may ask for. */
  const TOPOLOGY_FLAGS: set<Flag> := {ShareCpuCapacity, SharePkgResources, Numa, AsymPacking, SharePowerDomain}

  /** sd_init: `asked` is what the level asks for, `distant` says that it lies beyond RECLAIM_DISTANCE. */
  function InitFlags(asked: set<Flag>, distant: bool): set<Flag> {
    var level := if asked <= TOPOLOGY_FLAGS then asked else asked - TOPOLOGY_FLAGS;
    var flags := {LoadBalance, BalanceNewIdle, BalanceExec, BalanceFork, WakeAffine} + level;
    if ShareCpuCapacity in flags || SharePkgResources in flags then flags
    else if Numa in flags then flags + {Serialize} - (if distant then {BalanceExec, BalanceFork, WakeAffine} else {})
    else flags + {PreferSibling}
  }

  /** set_domain_attribute: `idle` says whether idle balancing is asked for, if anything is. */
  function AttributeFlags(flags: set<Flag>, idle: Option<bool>): set<Flag> {
    if idle.None? then flags
    else if idle.value then flags + {BalanceWake, BalanceNewIdle}
    else flags - {BalanceWake, BalanceNewIdle}
  }

  /** The flags a domain has when its groups are built: none of the ways to set them drops SD_LOAD_BALANCE. */
  function BuiltFlags(asked: set<Flag>, distant: bool, idle: Option<bool>, overlap: bool): (flags: set<Flag>)
    ensures LoadBalance in flags
  {
    AttributeFlags(InitFlags(asked, distant), idle) + if overlap then {Overlap} else {}
  }

  /** Each flag of a domain built for a level that asks for flags it may ask for. */
  lemma BuiltFlagsAre(asked: set<Flag>, distant: bool, idle: Option<bool>, overlap: bool, f: Flag)
    requires asked <= {ShareCpuCapacity, SharePkgResources, Numa, AsymPacking, SharePowerDomain}
    ensures var shares := ShareCpuCapacity in asked || SharePkgResources in asked;
      var far := !shares && Numa in asked && distant;
      f in BuiltFlags(asked, distant, idle, overlap) <==>
        match f
        case LoadBalance => true
        case BalanceNewIdle => idle != Some(false)
        case BalanceWake => idle == Some(true)
        case BalanceExec => !far
        case BalanceFork => !far
        case WakeAffine => !far
        case Serialize => !shares && Numa in asked
        case PreferSibling => !shares && Numa !in asked
        case Overlap => overlap
        case _ => f in asked
  {
  }

  /** A level that asks for a flag it may not ask for gets none of those that it may. */
  lemma MisdescribedFlagsAre(asked: set<Flag>, distant: bool, idle: Option<bool>, overlap: bool, f: Flag)
    requires !(asked <= {ShareCpuCapacity, SharePkgResources, Numa, AsymPacking, SharePowerDomain})
    ensures f in BuiltFlags(asked, distant, idle, overlap) <==>
        match f
        case ShareCpuCapacity => false
        case SharePkgResources => false
        case Numa => false
        case AsymPacking => false
        case SharePowerDomain => false
        case BalanceNewIdle => idle != Some(false)
        case BalanceWake => idle == Some(true) || (idle == None && BalanceWake in asked)
        case Serialize => Serialize in asked
        case Overlap => overlap || Overlap in asked
        case _ => true
  {
  }

  /** The parent's span holds the one of d, and is the same if it forms a single group. */
  predicate Nested(d: Desc, parent: Desc) {
    d.span <= parent.span && (!parent.many ==> d.span == parent.span)
  }

  predicate Stacked(ds: seq<Desc>) {
    && (forall k :: 0 <= k < |ds| ==> ds[k].span != {} && LoadBalance in ds[k].flags)
    && (forall k :: 0 <= k < |ds| - 1 ==> Nested(ds[k], ds[k + 1]))
  }

  /** A chain as build_sched_domains leaves it: a group of the base is a single CPU, one of a parent spans a child. */
  predicate WellBuilt(ds: seq<Desc>) {
    Stacked(ds) && (ds != [] && |ds[0].span| != 1 ==> ds[0].many)
  }

  /** Where the spans differ, a parent is removed exactly when it has several groups and no flag worth keeping. */
  lemma TransferSpans(d: Desc, parent: Desc, oneNode: bool)
    requires d.span != {} && Nested(d, parent) && d.span != parent.span
    ensures ParentDegenerate(d, parent, oneNode) <==> parent.many && parent.flags * (GROUP_FLAGS + {WakeAffine}) == {}
  {
    if |parent.span| == 1 { SubsetOfSingleton(d.span, parent.span); }
    assert parent.flags * (GROUP_FLAGS + {WakeAffine}) == parent.flags * GROUP_FLAGS + parent.flags * {WakeAffine};
  }

  /** A parent that is removed spans what the domain below it spans. */
  lemma RemovedAtEqualSpans(d: Desc, parent: Desc, oneNode: bool)
    requires d.span != {} && LoadBalance in parent.flags && Nested(d, parent) && ParentDegenerate(d, parent, oneNode)
    ensures d.span == parent.span
  {
    assert LoadBalance in parent.flags * (GROUP_FLAGS + {WakeAffine});
    if d.span != parent.span { TransferSpans(d, parent, oneNode); }
  }

  /** Each domain the pass removes, with the domain below it that takes its SD_PREFER_SIBLING. */
  function Removals(ds: seq<Desc>, oneNode: bool): seq<(Desc, Desc)>
    decreases |ds|
  {
    if |ds| < 2 then []
    else if ParentDegenerate(ds[0], ds[1], oneNode) then
      [(ds[0], ds[1])] + Removals([Inherit(ds[0], ds[1])] + ds[2..], oneNode)
    else Removals(ds[1..], oneNode)
  }

  /** The spans of the domains that have all of `flags`. */
  function Spans(ds: seq<Desc>, flags: set<Flag>): set<set<nat>> {
    set d | d in ds && flags <= d.flags :: d.span
  }

  lemma SpansOfCons(d: Desc, ds: seq<Desc>, flags: set<Flag>)
    ensures Spans([d] + ds, flags) == (if flags <= d.flags then {d.span} else {}) + Spans(ds, flags)
  {
    forall e | e in [d] + ds ensures e == d || e in ds { }
  }

  /** One removal at equal spans leaves the spans as they are, and those that prefer siblings. */
  lemma RemovalKeepsSpans(ds: seq<Desc>, flags: set<Flag>)
    requires |ds| >= 2 && ds[0].span == ds[1].span && flags <= {PreferSibling}
    ensures Spans([Inherit(ds[0], ds[1])] + ds[2..], flags) == Spans(ds, flags)
  {
    SpansOfCons(Inherit(ds[0], ds[1]), ds[2..], flags);
    SpansOfCons(ds[1], ds[2..], flags);
    SpansOfCons(ds[0], ds[1..], flags);
    assert ds[1..] == [ds[1]] + ds[2..] && ds == [ds[0]] + ds[1..];
  }

  lemma RemovalKeepsStacked(ds: seq<Desc>)
    requires Stacked(ds) && |ds| >= 2 && ds[0].span == ds[1].span
    ensures Stacked([Inherit(ds[0], ds[1])] + ds[2..])
  {
    var ds' := [Inherit(ds[0], ds[1])] + ds[2..];
    forall k | 0 <= k < |ds'| - 1 ensures Nested(ds'[k], ds'[k + 1]) {
      assert Nested(ds[k + 1], ds[k + 1 + 1]);
    }
  }

  lemma TailStacked(ds: seq<Desc>)
    requires Stacked(ds) && ds != []
    ensures Stacked(ds[1..])
  {
    forall k | 0 <= k < |ds[1..]| - 1 ensures Nested(ds[1..][k], ds[1..][k + 1]) {
      assert Nested(ds[k + 1], ds[k + 1 + 1]);
    }
  }

  /** Every removal of the pass is at equal spans: SD_PREFER_SIBLING never reaches a smaller domain. */
  lemma {:induction false} TransfersStayInSpan(ds: seq<Desc>, oneNode: bool)
    requires Stacked(ds)
    ensures forall p :: p in Removals(ds, oneNode) ==> p.0.span == p.1.span
    ensures |Removals(ds, oneNode)| + |Collapse(ds, oneNode)| == |ds|
    decreases |ds|
  {
    if |ds| < 2 {
    } else if ParentDegenerate(ds[0], ds[1], oneNode) {
      assert Nested(ds[0], ds[0 + 1]);
      RemovedAtEqualSpans(ds[0], ds[1], oneNode);
      RemovalKeepsStacked(ds);
      TransfersStayInSpan([Inherit(ds[0], ds[1])] + ds[2..], oneNode);
    } else {
      TailStacked(ds);
      TransfersStayInSpan(ds[1..], oneNode);
    }
  }

  /** The pass keeps every span of the chain, and adds or loses no span that prefers siblings. */
  lemma {:induction false} CollapseKeepsSpans(ds: seq<Desc>, flags: set<Flag>, oneNode: bool)
    requires Stacked(ds) && flags <= {PreferSibling}
    ensures Spans(Collapse(ds, oneNode), flags) == Spans(ds, flags)
    decreases |ds|
  {
    if |ds| < 2 {
    } else if ParentDegenerate(ds[0], ds[1], oneNode) {
      assert Nested(ds[0], ds[0 + 1]);
      RemovedAtEqualSpans(ds[0], ds[1], oneNode);
      RemovalKeepsStacked(ds);
      RemovalKeepsSpans(ds, flags);
      CollapseKeepsSpans([Inherit(ds[0], ds[1])] + ds[2..], flags, oneNode);
    } else {
      TailStacked(ds);
      CollapseKeepsSpans(ds[1..], flags, oneNode);
      SpansOfCons(ds[0], Collapse(ds[1..], oneNode), flags);
      SpansOfCons(ds[0], ds[1..], flags);
      assert ds == [ds[0]] + ds[1..];
    }
  }

  /** The collapsed chain of a well-built one is degenerate at its base exactly for a single CPU. */
  lemma BaseDropped(ds: seq<Desc>, oneNode: bool)
    requires WellBuilt(ds) && ds != []
    ensures Collapse(ds, oneNode) != []
    ensures Degenerate(Collapse(ds, oneNode)[0]) <==> |ds[0].span| == 1
  {
    CollapseBase(ds, oneNode);
    var base := Collapse(ds, oneNode)[0];
    assert LoadBalance in base.flags * GROUP_FLAGS;
  }

  /** What is attached has a domain for exactly the spans of several CPUs, each preferring siblings as before. */
  lemma AttachedSpans(ds: seq<Desc>, flags: set<Flag>, oneNode: bool)
    requires WellBuilt(ds) && flags <= {PreferSibling}
    ensures Spans(DropBase(Collapse(ds, oneNode)), flags) == set span | span in Spans(ds, flags) && |span| != 1
  {
    var c := Collapse(ds, oneNode);
    var r := DropBase(c);
    NothingDegenerateAttached(ds, oneNode);
    CollapseKeepsSpans(ds, flags, oneNode);
    if ds != [] {
      CollapseBase(ds, oneNode);
      BaseDropped(ds, oneNode);
      SpansOfCons(c[0], c[1..], flags);
      assert c == [c[0]] + c[1..];
    }
    forall d | d in r ensures |d.span| != 1 {
      var k :| 0 <= k < |r| && r[k] == d;
      assert !Degenerate(r[k]);
    }
  }

  // ---------------------------------------------------------------- which domains are superfluous

  /** A flag of `parent` that makes a difference over a domain of the same span. */
  predicate Counts(f: Flag, parent: Desc, oneNode: bool) {
    || parent.many
    || f in {WakeAffine, BalanceWake, Overlap, Numa, AsymPacking}
    || (f == Serialize && !oneNode)
  }

  /** d's parent spans the same, and is of no use of its own or has no flag that counts beyond those of d. */
  predicate Superfluous(d: Desc, parent: Desc, oneNode: bool) {
    && d.span == parent.span
    && (|parent.span| == 1
        || (!parent.many && WakeAffine !in parent.flags)
        || forall f :: f in parent.flags && f !in d.flags ==> !Counts(f, parent, oneNode))
  }

  /** The pass removes a parent exactly when it is superfluous. */
  lemma RemovedIffSuperfluous(d: Desc, parent: Desc, oneNode: bool)
    requires d.span != {} && LoadBalance in parent.flags && Nested(d, parent)
    ensures ParentDegenerate(d, parent, oneNode) <==> Superfluous(d, parent, oneNode)
  {
    assert LoadBalance in parent.flags * GROUP_FLAGS;
    if ParentDegenerate(d, parent, oneNode) { RemovedAtEqualSpans(d, parent, oneNode); }
    forall f ensures f in ParentFlags(parent, oneNode) - d.flags <==>
        f in parent.flags && f !in d.flags && Counts(f, parent, oneNode)
    {
    }
    if f :| f in parent.flags && f !in d.flags && Counts(f, parent, oneNode) {
      assert f in ParentFlags(parent, oneNode) - d.flags;
    }
  }

  /** Every domain that the pass removes is superfluous over the one it is compared with. */
  lemma {:induction false} RemovalsAreSuperfluous(ds: seq<Desc>, oneNode: bool)
    requires Stacked(ds)
    ensures forall p :: p in Removals(ds, oneNode) ==> Superfluous(p.0, p.1, oneNode)
    decreases |ds|
  {
    if |ds| < 2 {
    } else if ParentDegenerate(ds[0], ds[1], oneNode) {
      assert Nested(ds[0], ds[0 + 1]);
      RemovedIffSuperfluous(ds[0], ds[1], oneNode);
      RemovalKeepsStacked(ds);
      RemovalsAreSuperfluous([Inherit(ds[0], ds[1])] + ds[2..], oneNode);
    } else {
      TailStacked(ds);
      RemovalsAreSuperfluous(ds[1..], oneNode);
    }
  }

  lemma {:induction false} CollapseStacked(ds: seq<Desc>, oneNode: bool)
    requires Stacked(ds)
    ensures Stacked(Collapse(ds, oneNode))
    decreases |ds|
  {
    if |ds| < 2 {
    } else if ParentDegenerate(ds[0], ds[1], oneNode) {
      assert Nested(ds[0], ds[0 + 1]);
      RemovedAtEqualSpans(ds[0], ds[1], oneNode);
      RemovalKeepsStacked(ds);
      CollapseStacked([Inherit(ds[0], ds[1])] + ds[2..], oneNode);
    } else {
      var rest := Collapse(ds[1..], oneNode);
      TailStacked(ds);
      CollapseStacked(ds[1..], oneNode);
      CollapseBase(ds[1..], oneNode);
      assert Nested(ds[0], ds[0 + 1]);
      StackedCons(ds[0], rest);
    }
  }

  lemma StackedCons(d: Desc, rest: seq<Desc>)
    requires d.span != {} && LoadBalance in d.flags && Stacked(rest) && (rest != [] ==> Nested(d, rest[0]))
    ensures Stacked([d] + rest)
  {
    var all := [d] + rest;
    forall k | 0 <= k < |all| - 1 ensures Nested(all[k], all[k + 1]) {
      if k > 0 { assert Nested(rest[k - 1], rest[k - 1 + 1]); }
    }
  }

  /** No attached domain is superfluous over the one below it, and each is of use. */
  lemma NothingSuperfluousAttached(ds: seq<Desc>, oneNode: bool)
    requires WellBuilt(ds)
    ensures var r := DropBase(Collapse(ds, oneNode));
      && Stacked(r)
      && (forall k :: 0 <= k < |r| ==> |r[k].span| != 1 && (r[k].many || WakeAffine in r[k].flags))
      && (forall k :: 0 <= k < |r| - 1 ==> !Superfluous(r[k], r[k + 1], oneNode))
  {
    var c := Collapse(ds, oneNode);
    var r := DropBase(c);
    NothingDegenerateAttached(ds, oneNode);
    CollapseStacked(ds, oneNode);
    if r != c { TailStacked(c); }
    forall k | 0 <= k < |r| ensures |r[k].span| != 1 && (r[k].many || WakeAffine in r[k].flags) {
      assert !Degenerate(r[k]);
    }
    forall k | 0 <= k < |r| - 1 ensures !Superfluous(r[k], r[k + 1], oneNode) {
      assert Nested(r[k], r[k + 1]) && !ParentDegenerate(r[k], r[k + 1], oneNode);
      RemovedIffSuperfluous(r[k], r[k + 1], oneNode);
    }
  }

  // ---------------------------------------------------------------- ordinary levels

  /** The flags of a level of a single node, without SD_ASYM_PACKING. */
  ghost predicate Ordinary(flags: set<Flag>) {
    exists asked: set<Flag> ::
      asked <= {ShareCpuCapacity, SharePkgResources, SharePowerDomain} && flags == InitFlags(asked, false)
  }

  /** What is left of such flags where a single group counts: SD_WAKE_AFFINE, which the level below has too. */
  predicate OnlyAffine(d: Desc) {
    WakeAffine in d.flags && d.flags !! {BalanceWake, Overlap, Numa, AsymPacking, Serialize}
  }

  lemma OrdinaryIsOnlyAffine(d: Desc)
    requires Ordinary(d.flags)
    ensures OnlyAffine(d)
  {
  }

  /** Where two levels span the same the upper one forms a single group. */
  predicate SingleWhereEqual(ds: seq<Desc>) {
    forall k :: 0 <= k < |ds| - 1 ==> ds[k].span != ds[k + 1].span || !ds[k + 1].many
  }

  predicate AllOnlyAffine(ds: seq<Desc>) {
    forall k :: 0 <= k < |ds| ==> OnlyAffine(ds[k])
  }

  /** The domains of the chain span more and more. */
  predicate Growing(ds: seq<Desc>) {
    forall k :: 0 <= k < |ds| - 1 ==> ds[k].span < ds[k + 1].span
  }

  lemma SingleTail(ds: seq<Desc>)
    requires SingleWhereEqual(ds) && ds != []
    ensures SingleWhereEqual(ds[1..])
  {
    forall k | 0 <= k < |ds[1..]| - 1 ensures ds[1..][k].span != ds[1..][k + 1].span || !ds[1..][k + 1].many {
      assert ds[k + 1].span != ds[k + 1 + 1].span || !ds[k + 1 + 1].many;
    }
  }

  lemma RemovalKeepsSingle(ds: seq<Desc>)
    requires SingleWhereEqual(ds) && |ds| >= 2 && ds[0].span == ds[1].span
    ensures SingleWhereEqual([Inherit(ds[0], ds[1])] + ds[2..])
  {
    var ds' := [Inherit(ds[0], ds[1])] + ds[2..];
    forall k | 0 <= k < |ds'| - 1 ensures ds'[k].span != ds'[k + 1].span || !ds'[k + 1].many {
      assert ds[k + 1].span != ds[k + 1 + 1].span || !ds[k + 1 + 1].many;
    }
  }

  lemma {:induction false} OrdinaryCollapseGrows(ds: seq<Desc>, oneNode: bool)
    requires Stacked(ds) && SingleWhereEqual(ds) && AllOnlyAffine(ds)
    ensures Growing(Collapse(ds, oneNode))
    decreases |ds|
  {
    if |ds| < 2 {
    } else {
      assert Nested(ds[0], ds[0 + 1]) && (ds[0].span != ds[0 + 1].span || !ds[0 + 1].many);
      RemovedIffSuperfluous(ds[0], ds[1], oneNode);
      if ParentDegenerate(ds[0], ds[1], oneNode) {
        RemovalKeepsStacked(ds);
        RemovalKeepsSingle(ds);
        OrdinaryCollapseGrows([Inherit(ds[0], ds[1])] + ds[2..], oneNode);
      } else {
        TailStacked(ds);
        SingleTail(ds);
        OrdinaryCollapseGrows(ds[1..], oneNode);
        CollapseBase(ds[1..], oneNode);
        GrowingCons(ds[0], Collapse(ds[1..], oneNode));
      }
    }
  }

  lemma GrowingCons(d: Desc, rest: seq<Desc>)
    requires Growing(rest) && (rest != [] ==> d.span < rest[0].span)
    ensures Growing([d] + rest)
  {
    var all := [d] + rest;
    forall k | 0 <= k < |all| - 1 ensures all[k].span < all[k + 1].span {
      if k > 0 { assert rest[k - 1].span < rest[k - 1 + 1].span; }
    }
  }

  /** Of ordinary levels one is attached for each span of several CPUs: no two of the same span remain. */
  lemma OrdinaryLevelsGrow(ds: seq<Desc>, oneNode: bool)
    requires WellBuilt(ds) && SingleWhereEqual(ds) && forall k :: 0 <= k < |ds| ==> Ordinary(ds[k].flags)
    ensures Growing(DropBase(Collapse(ds, oneNode)))
  {
    forall k | 0 <= k < |ds| ensures OnlyAffine(ds[k]) { OrdinaryIsOnlyAffine(ds[k]); }
    OrdinaryCollapseGrows(ds, oneNode);
    var c := Collapse(ds, oneNode);
    var r := DropBase(c);
    forall k | 0 <= k < |r| - 1 ensures r[k].span < r[k + 1].span {
      if r != c { assert c[k + 1].span < c[k + 1 + 1].span; }
    }
  }

  // ---------------------------------------------------------------- the linked chain

  class Domain {
    const span: set<nat>
    const many: bool
    var flags: set<Flag>
    var parent: Domain?
    var child: Domain?

    constructor (span: set<nat>, many: bool, flags: set<Flag>)
      ensures Describe(this) == Desc(span, many, flags) && parent == child == null
    {
      this.span, this.many, this.flags := span, many, flags;
      parent, child := null, null;
    }
  }

  class RunQueue {
    var sd: Domain?
  }

  function Describe(d: Domain): Desc
    reads d`flags
  {
    Desc(d.span, d.many, d.flags)
  }

  /** vs lists the domains of ds as values. */
  ghost predicate Matches(ds: seq<Domain>, vs: seq<Desc>)
    reads ds`flags
  {
    |vs| == |ds| && forall k :: 0 <= k < |ds| ==> Describe(ds[k]) == vs[k]
  }

  function At(ds: seq<Domain>, k: int): Domain? {
    if 0 <= k < |ds| then ds[k] else null
  }

  /** ds from its base up: the parent and child links agree with the order. */
  ghost predicate IsChain(ds: seq<Domain>)
    reads ds`parent, ds`child
  {
    Distinct(ds) && forall k :: 0 <= k < |ds| ==> ds[k].parent == At(ds, k + 1) && ds[k].child == At(ds, k - 1)
  }

  /** ds is a subsequence of ds0, in the same order. */
  ghost predicate Within(ds: seq<Domain>, ds0: seq<Domain>) {
    ds == [] || (ds0 != [] && ((ds[0] == ds0[0] && Within(ds[1..], ds0[1..])) || Within(ds, ds0[1..])))
  }

  function Skip<T>(s: seq<T>, k: nat): seq<T>
    requires k < |s|
  {
    s[..k] + s[k + 1..]
  }

  lemma {:induction false} SkipWithin(ds: seq<Domain>, ds0: seq<Domain>, k: nat)
    requires Within(ds, ds0) && k < |ds|
    ensures Within(Skip(ds, k), ds0)
    decreases |ds0|
  {
    if ds[0] == ds0[0] && Within(ds[1..], ds0[1..]) {
      if k == 0 {
        assert Skip(ds, 0) == ds[1..];
      } else {
        SkipWithin(ds[1..], ds0[1..], k - 1);
        assert Skip(ds, k)[1..] == Skip(ds[1..], k - 1);
      }
    } else {
      SkipWithin(ds, ds0[1..], k);
    }
  }

  lemma {:induction false} WithinItself(ds: seq<Domain>)
    ensures Within(ds, ds)
  {
    if ds == [] {
    } else {
      WithinItself(ds[1..]);
    }
  }

  lemma {:induction false} WithinMembers(ds: seq<Domain>, ds0: seq<Domain>)
    requires Within(ds, ds0)
    ensures forall d :: d in ds ==> d in ds0
    decreases |ds0|
  {
    if ds != [] {
      assert ds == [ds[0]] + ds[1..];
      if ds[0] == ds0[0] && Within(ds[1..], ds0[1..]) { WithinMembers(ds[1..], ds0[1..]); }
      else { WithinMembers(ds, ds0[1..]); }
    }
  }

  /** Every domain of ds0 is either still in ds or destroyed, once. */
  ghost predicate Accounted(ds: seq<Domain>, destroyed: seq<Domain>, ds0: seq<Domain>) {
    multiset(ds) + multiset(destroyed) == multiset(ds0)
  }

  lemma SkipAccounted(ds: seq<Domain>, destroyed: seq<Domain>, ds0: seq<Domain>, k: nat)
    requires Accounted(ds, destroyed, ds0) && k < |ds|
    ensures Accounted(Skip(ds, k), destroyed + [ds[k]], ds0)
  {
    assert ds == ds[..k] + [ds[k]] + ds[k + 1..];
  }

  lemma SkipDistinct(ds: seq<Domain>, k: nat)
    requires Distinct(ds) && k < |ds|
    ensures Distinct(Skip(ds, k))
  {
  }

  /** Who is next to whom once ds[i + 1] is gone. */
  lemma SkipNeighbours(ds: seq<Domain>, i: nat, es: seq<Domain>, k: nat)
    requires Distinct(ds) && i + 1 < |ds| && es == Skip(ds, i + 1) && k < |es|
    ensures es[k] == if k <= i then ds[k] else ds[k + 1]
    ensures At(es, k + 1) == if k < i then ds[k + 1] else At(ds, k + 2)
    ensures At(es, k - 1) == if k <= i then At(ds, k - 1) else if k == i + 1 then ds[i] else ds[k]
  {
  }

  ghost predicate Inside(ds: seq<Domain>, repr: set<Domain>) {
    forall k :: 0 <= k < |ds| ==> ds[k] in repr
  }

  lemma SkipInside(ds: seq<Domain>, repr: set<Domain>, k: nat)
    requires Inside(ds, repr) && k < |ds|
    ensures Inside(Skip(ds, k), repr)
  {
  }

  /** Unlinks ds[i + 1] from the chain. */
  method Unlink(ghost ds: seq<Domain>, ghost repr: set<Domain>, ghost i: nat, tmp: Domain, upper: Domain?)
    requires IsChain(ds) && Inside(ds, repr) && i + 1 < |ds| && tmp == ds[i] && upper == At(ds, i + 2)
    modifies repr`parent, repr`child
    ensures IsChain(Skip(ds, i + 1))
  {
    ghost var es := Skip(ds, i + 1);
    SkipDistinct(ds, i + 1);
    tmp.parent := upper;
    if upper != null {
      upper.child := tmp;
    }
    forall k | 0 <= k < |es| ensures es[k].parent == At(es, k + 1) && es[k].child == At(es, k - 1) {
      SkipNeighbours(ds, i, es, k);
    }
  }

  /** Unlinks the base: its parent has no child any more. */
  method Detach(ghost ds: seq<Domain>, ghost repr: set<Domain>, base: Domain?)
    requires IsChain(ds) && Inside(ds, repr) && ds != [] && base == At(ds, 1)
    modifies repr`child
    ensures IsChain(Skip(ds, 0))
  {
    ghost var es := Skip(ds, 0);
    SkipDistinct(ds, 0);
    if base != null {
      base.child := null;
    }
    forall k | 0 <= k < |es| ensures es[k].parent == At(es, k + 1) && es[k].child == At(es, k - 1) {
      assert es[k] == ds[k + 1];
    }
  }

  /** The values once ds[i + 1] is removed. */
  function Spliced(vs: seq<Desc>, i: nat): seq<Desc>
    requires i + 1 < |vs|
  {
    Skip(vs, i + 1)[i := Inherit(vs[i], vs[i + 1])]
  }

  /** With the pass at position i of vs, what is left to do leads to `goal`. */
  predicate Pending(vs: seq<Desc>, i: nat, goal: seq<Desc>, oneNode: bool) {
    i < |vs| && vs[..i] + Collapse(vs[i..], oneNode) == goal
  }

  lemma PendingStart(vs: seq<Desc>, oneNode: bool)
    requires vs != []
    ensures Pending(vs, 0, Collapse(vs, oneNode), oneNode)
  {
    assert vs[0..] == vs;
  }

  lemma PendingRemove(vs: seq<Desc>, i: nat, goal: seq<Desc>, oneNode: bool)
    requires i + 1 < |vs| && ParentDegenerate(vs[i], vs[i + 1], oneNode) && Pending(vs, i, goal, oneNode)
    ensures Pending(Spliced(vs, i), i, goal, oneNode)
  {
    var vs' := Spliced(vs, i);
    assert vs'[..i] == vs[..i];
    assert vs[i..][2..] == vs[i + 2..];
    assert vs'[i..] == [Inherit(vs[i], vs[i + 1])] + vs[i..][2..];
  }

  lemma PendingKeep(vs: seq<Desc>, i: nat, goal: seq<Desc>, oneNode: bool)
    requires i + 1 < |vs| && !ParentDegenerate(vs[i], vs[i + 1], oneNode) && Pending(vs, i, goal, oneNode)
    ensures Pending(vs, i + 1, goal, oneNode)
  {
    assert vs[i..][1..] == vs[i + 1..];
    assert vs[..i + 1] == vs[..i] + [vs[i]];
    assert vs[..i] + [vs[i]] + Collapse(vs[i + 1..], oneNode) == vs[..i] + ([vs[i]] + Collapse(vs[i + 1..], oneNode));
  }

  lemma PendingEnd(vs: seq<Desc>, i: nat, goal: seq<Desc>, oneNode: bool)
    requires Pending(vs, i, goal, oneNode) && i + 1 == |vs|
    ensures vs == goal
  {
    assert vs[..i] + vs[i..] == vs;
  }

  /** Removes the parent of ds[i], handing its SD_PREFER_SIBLING down. */
  method Splice(ghost c: Chain, ghost i: nat, tmp: Domain, parent: Domain)
    requires IsChain(c.ds) && Matches(c.ds, c.vs) && Inside(c.ds, c.repr)
    requires i + 1 < |c.ds| && tmp == c.ds[i] && parent == c.ds[i + 1]
    modifies c.repr
    ensures IsChain(Skip(c.ds, i + 1)) && Matches(Skip(c.ds, i + 1), Spliced(c.vs, i))
  {
    ghost var ds, vs := c.ds, c.vs;
    Unlink(ds, c.repr, i, tmp, parent.parent);
    PassDown(ds, vs, i, tmp, parent);
  }

  method PassDown(ghost ds: seq<Domain>, ghost vs: seq<Desc>, ghost i: nat, tmp: Domain, parent: Domain)
    requires Distinct(ds) && Matches(ds, vs) && i + 1 < |ds| && tmp == ds[i] && parent == ds[i + 1]
    modifies tmp`flags
    ensures Matches(Skip(ds, i + 1), Spliced(vs, i))
  {
    if PreferSibling in parent.flags {
      tmp.flags := tmp.flags + {PreferSibling};
    }
    ghost var es := Skip(ds, i + 1);
    forall k | 0 <= k < |es| ensures Describe(es[k]) == Spliced(vs, i)[k] {
      SkipNeighbours(ds, i, es, k);
    }
  }

  /** The part of the chain ds0 that is still linked, its values, what has been destroyed, and where it lives. */
  datatype Chain = Chain(ds: seq<Domain>, vs: seq<Desc>, destroyed: seq<Domain>, ds0: seq<Domain>, repr: set<Domain>)

  ghost predicate Progress(c: Chain)
    reads c.ds`parent, c.ds`child, c.ds`flags
  {
    && IsChain(c.ds) && Matches(c.ds, c.vs) && Inside(c.ds, c.repr)
    && Within(c.ds, c.ds0) && Accounted(c.ds, c.destroyed, c.ds0)
  }

  ghost function Shorter(c: Chain, i: nat): Chain
    requires |c.vs| == |c.ds| && i + 1 < |c.ds|
  {
    c.(ds := Skip(c.ds, i + 1), vs := Spliced(c.vs, i), destroyed := c.destroyed + [c.ds[i + 1]])
  }

  lemma ShorterIs(c: Chain, i: nat, goal: seq<Desc>, oneNode: bool)
    requires |c.vs| == |c.ds| && i + 1 < |c.ds| && ParentDegenerate(c.vs[i], c.vs[i + 1], oneNode)
    requires Pending(c.vs, i, goal, oneNode)
    ensures var c' := Shorter(c, i);
      && |c'.ds| == |c.ds| - 1 && c'.ds[i] == c.ds[i] && c'.ds[0] == c.ds[0]
      && Pending(c'.vs, i, goal, oneNode)
  {
    PendingRemove(c.vs, i, goal, oneNode);
  }

  method RemoveParent(ghost c: Chain, ghost i: nat, tmp: Domain, parent: Domain)
    requires Progress(c) && i + 1 < |c.ds| && tmp == c.ds[i] && parent == c.ds[i + 1]
    modifies c.repr
    ensures Progress(Shorter(c, i))
  {
    SkipWithin(c.ds, c.ds0, i + 1);
    SkipAccounted(c.ds, c.destroyed, c.ds0, i + 1);
    SkipInside(c.ds, c.repr, i + 1);
    Splice(c, i, tmp, parent);
  }

  /** One turn of the loop: removes the parent, or goes on to it. */
  method Visit(tmp0: Domain, ghost c: Chain, ghost i: nat, ghost goal: seq<Desc>, oneNode: bool)
    returns (tmp: Domain, gone: seq<Domain>, ghost c': Chain, ghost i': nat)
    requires Progress(c) && i + 1 < |c.ds| && tmp0 == c.ds[i] && tmp0.parent == c.ds[i + 1]
    requires Pending(c.vs, i, goal, oneNode)
    modifies c.repr
    ensures Progress(c') && c'.repr == c.repr && c'.ds0 == c.ds0 && c'.destroyed == c.destroyed + gone
    ensures i' < |c'.ds| && tmp == c'.ds[i'] && c'.ds[0] == c.ds[0]
    ensures Pending(c'.vs, i', goal, oneNode) && |c'.ds| - i' < |c.ds| - i
  {
    var parent := tmp0.parent;
    tmp, gone, c', i' := tmp0, [], c, i;
    if ParentDegenerate(Describe(tmp), Describe(parent), oneNode) {
      assert Describe(tmp) == c.vs[i] && Describe(parent) == c.vs[i + 1];
      ShorterIs(c, i, goal, oneNode);
      RemoveParent(c, i, tmp, parent);
      gone, c' := [parent], Shorter(c, i);
    } else {
      PendingKeep(c.vs, i, goal, oneNode);
      tmp, i' := parent, i + 1;
    }
  }

  /** The first loop of cpu_attach_domain. */
  method RemoveDegenerates(sd: Domain, ghost c0: Chain, oneNode: bool) returns (destroyed: seq<Domain>, ghost c: Chain)
    requires Progress(c0) && c0.destroyed == [] && At(c0.ds, 0) == sd
    modifies c0.repr
    ensures Progress(c) && At(c.ds, 0) == sd && c.vs == Collapse(c0.vs, oneNode)
    ensures c.repr == c0.repr && c.ds0 == c0.ds0 && c.destroyed == destroyed
  {
    c, destroyed := c0, [];
    ghost var goal := Collapse(c0.vs, oneNode);
    ghost var i: nat := 0;
    var tmp := sd;
    PendingStart(c0.vs, oneNode);
    while tmp.parent != null
      invariant Progress(c) && c.repr == c0.repr && c.ds0 == c0.ds0 && c.destroyed == destroyed
      invariant i < |c.ds| && c.ds[i] == tmp && c.ds[0] == sd
      invariant Pending(c.vs, i, goal, oneNode)
      decreases |c.ds| - i
    {
      HasParent(c.ds, i);
      var gone;
      tmp, gone, c, i := Visit(tmp, c, i, goal, oneNode);
      destroyed := destroyed + gone;
    }
    PendingEnd(c.vs, i, goal, oneNode);
  }

  lemma HasParent(ds: seq<Domain>, i: nat)
    requires IsChain(ds) && i < |ds| && ds[i].parent != null
    ensures i + 1 < |ds| && ds[i].parent == ds[i + 1]
  {
  }

  /** destroy_sched_domains: walks the chain by its parent links. */
  method DestroySchedDomains(sd0: Domain?, ghost ds: seq<Domain>) returns (destroyed: seq<Domain>)
    requires IsChain(ds) && At(ds, 0) == sd0
    ensures destroyed == ds
  {
    var sd := sd0;
    destroyed := [];
    while sd != null
      invariant |destroyed| <= |ds| && destroyed == ds[..|destroyed|] && sd == At(ds, |destroyed|)
      decreases |ds| - |destroyed|
    {
      destroyed := destroyed + [sd];
      sd := sd.parent;
    }
  }

  /** The base is dropped when it is degenerate, and its parent becomes the base. */
  method DropDegenerateBase(sd: Domain, ghost c0: Chain) returns (base: Domain?, gone: seq<Domain>, ghost c: Chain)
    requires Progress(c0) && At(c0.ds, 0) == sd
    modifies c0.repr
    ensures Progress(c) && At(c.ds, 0) == base && c.vs == DropBase(c0.vs)
    ensures c.repr == c0.repr && c.ds0 == c0.ds0 && c.destroyed == c0.destroyed + gone
  {
    base, gone, c := sd, [], c0;
    if Degenerate(Describe(sd)) {
      SkipWithin(c.ds, c.ds0, 0);
      SkipAccounted(c.ds, c.destroyed, c.ds0, 0);
      base, gone := sd.parent, [sd];
      Detach(c.ds, c.repr, base);
      SkipMatches(c.ds, c.vs);
      c := c.(ds := Skip(c.ds, 0), vs := DropBase(c.vs), destroyed := c.destroyed + gone);
    }
  }

  lemma SkipMatches(ds: seq<Domain>, vs: seq<Desc>)
    requires Matches(ds, vs) && vs != []
    ensures Matches(Skip(ds, 0), vs[1..])
  {
  }

  /** The new chain with everything removed from it that does not contribute to scheduling. */
  method Prune(sd: Domain?, ghost c0: Chain, oneNode: bool)
    returns (base: Domain?, destroyed: seq<Domain>, ghost c: Chain)
    requires Progress(c0) && c0.destroyed == [] && At(c0.ds, 0) == sd
    modifies c0.repr
    ensures Progress(c) && At(c.ds, 0) == base && c.vs == DropBase(Collapse(c0.vs, oneNode))
    ensures c.ds0 == c0.ds0 && c.destroyed == destroyed
  {
    base, destroyed, c := sd, [], c0;
    if sd != null {
      destroyed, c := RemoveDegenerates(sd, c0, oneNode);
      var gone;
      base, gone, c := DropDegenerateBase(sd, c);
      destroyed := destroyed + gone;
    }
  }

  /**
    cpu_attach_domain: what is kept of the new chain `c0`, in order, becomes the chain of the run queue;
    every other domain of the new chain, and the whole previous chain, is destroyed once.
   */
  method CpuAttachDomain(sd: Domain?, rq: RunQueue, ghost c0: Chain, ghost oldDs: seq<Domain>, oneNode: bool)
    returns (destroyed: seq<Domain>, ghost c: Chain)
    requires Progress(c0) && c0.ds == c0.ds0 && c0.destroyed == [] && At(c0.ds, 0) == sd
    requires IsChain(oldDs) && At(oldDs, 0) == rq.sd && forall d :: d in oldDs ==> d !in c0.repr
    modifies rq`sd, c0.repr
    ensures Progress(c) && c.ds0 == c0.ds && rq.sd == At(c.ds, 0)
    ensures c.vs == DropBase(Collapse(c0.vs, oneNode)) && destroyed == c.destroyed + oldDs
  {
    var base;
    base, destroyed, c := Prune(sd, c0, oneNode);
    var previous := Replace(rq, base, oldDs);
    destroyed := destroyed + previous;
  }

  /** The last part: the new base is installed and the previous chain destroyed. */
  method Replace(rq: RunQueue, base: Domain?, ghost oldDs: seq<Domain>) returns (destroyed: seq<Domain>)
    requires IsChain(oldDs) && At(oldDs, 0) == rq.sd
    modifies rq`sd
    ensures rq.sd == base && destroyed == oldDs
  {
    var tmp := rq.sd;
    rq.sd := base;
    destroyed := DestroySchedDomains(tmp, oldDs);
  }
}
