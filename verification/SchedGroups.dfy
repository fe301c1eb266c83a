/** The ring of scheduling groups of a domain (assg4/core.c, build_sched_groups). */
module SchedGroups {
  import opened Basics

  /**
    A domain: CPU numbers below n, the CPUs it spans, and for a CPU with a child domain the span of
    that child.
   */
  datatype Shape = Shape(n: nat, span: set<nat>, child: map<nat, set<nat>>) {

    /** What the group of c will hold: the span of its child domain, or c alone. */
    function Part(c: nat): set<nat> {
      if c in child then child[c] else {c}
    }

    /** The child domains partition the span, and each holds its own CPU. */
    ghost predicate Nested() {
      && span != {} && (forall c :: c in span ==> c < n)
      && (forall c :: c in span ==> c in Part(c) && Part(c) <= span)
      && (forall c, d :: c in span && d in Part(c) ==> Part(d) == Part(c))
    }
  }

  type Domain = s: Shape | s.Nested() ghost witness Shape(1, {0}, map[])

  /** cpumask_first, searching from k on */
  function FirstFrom(s: set<nat>, k: nat, n: nat): (r: nat)
    requires exists x :: x in s && k <= x < n
    ensures r in s && k <= r < n && forall x :: x in s && k <= x ==> r <= x
    decreases n - k
  {
    if k in s then k
    else
      assert exists x :: x in s && k + 1 <= x < n by {
        var x :| x in s && k <= x < n;
        assert x != k;
      }
      FirstFrom(s, k + 1, n)
  }

  /** get_group: the first CPU of the child domain, or the CPU itself. */
  function GetGroup(s: Domain, c: nat): (r: nat)
    requires c in s.span
    ensures r in s.Part(c) && forall x :: x in s.Part(c) ==> r <= x
  {
    if c in s.child then
      assert c in s.Part(c);
      FirstFrom(s.child[c], 0, s.n)
    else c
  }

  function FirstCpu(s: Domain): (r: nat)
    ensures r in s.span && forall x :: x in s.span ==> r <= x
  {
    SpanHasCpu(s);
    FirstFrom(s.span, 0, s.n)
  }

  lemma SpanHasCpu(s: Domain)
    ensures exists x :: x in s.span && 0 <= x < s.n
  {
    var x :| x in s.span;
  }

  lemma GroupFacts(s: Domain, c: nat)
    requires c in s.span
    ensures GetGroup(s, c) in s.span && GetGroup(s, c) <= c
    ensures GetGroup(s, GetGroup(s, c)) == GetGroup(s, c) && s.Part(GetGroup(s, c)) == s.Part(c)
  {
    var g := GetGroup(s, c);
    assert s.Part(g) == s.Part(c);
  }

  /** Two CPUs share a group exactly when one is in the other's child domain. */
  lemma SameGroup(s: Domain, c: nat, d: nat)
    requires c in s.span && d in s.span
    ensures GetGroup(s, d) == GetGroup(s, c) <==> d in s.Part(c)
  {
    GroupFacts(s, c);
    GroupFacts(s, d);
  }

  /** The groups below i, in the order in which they are found. */
  function Leaders(s: Domain, i: nat): seq<nat> {
    if i == 0 then []
    else Leaders(s, i - 1) + if i - 1 in s.span && GetGroup(s, i - 1) == i - 1 then [i - 1] else []
  }

  lemma {:induction false} LeadersAre(s: Domain, i: nat)
    ensures forall k :: 0 <= k < |Leaders(s, i)| ==>
      Leaders(s, i)[k] in s.span && Leaders(s, i)[k] < i && GetGroup(s, Leaders(s, i)[k]) == Leaders(s, i)[k]
    ensures Increasing(Leaders(s, i))
    ensures forall c :: c in s.span && c < i && GetGroup(s, c) == c ==> c in Leaders(s, i)
  {
    if i == 0 {
    } else {
      LeadersAre(s, i - 1);
    }
  }

  lemma GroupsAscend(s: Domain)
    ensures Increasing(Groups(s))
  {
    LeadersAre(s, s.n);
  }

  /** All the groups of the domain. */
  function Groups(s: Domain): seq<nat> {
    Leaders(s, s.n)
  }

  /** The group of c, by its place in the ring. */
  lemma IndexOfGroup(s: Domain, c: nat) returns (k: nat)
    requires c in s.span
    ensures k < |Groups(s)| && Groups(s)[k] == GetGroup(s, c)
  {
    GroupFacts(s, c);
    LeadersAre(s, s.n);
    k :| 0 <= k < |Groups(s)| && Groups(s)[k] == GetGroup(s, c);
  }

  /** The place m steps after k in a ring of n. */
  function Turn(k: nat, m: nat, n: nat): (r: nat)
    requires k < n && m <= n
    ensures r < n
  {
    if k + m < n then k + m else k + m - n
  }

  /** The ring after the groups have been built: masks and links. */
  ghost predicate IsRing(s: Domain, cpus: seq<set<nat>>, next: seq<Option<nat>>) {
    && |cpus| == |next| == s.n && AllInSpan(s, Groups(s))
    && (forall k :: 0 <= k < |Groups(s)| ==> cpus[Groups(s)[k]] == s.Part(Groups(s)[k]))
    && (forall k :: 0 <= k < |Groups(s)| ==> PointsTo(next, Groups(s), k, Turn(k, 1, |Groups(s)|)))
  }

  /** The link of the j-th group leads to the k-th. */
  predicate PointsTo(next: seq<Option<nat>>, gs: seq<nat>, j: nat, k: nat)
    requires j < |gs| && k < |gs|
  {
    gs[j] < |next| && next[gs[j]] == Some(gs[k])
  }

  predicate Onward(next: seq<Option<nat>>, gs: seq<nat>, k: nat) {
    k + 1 < |gs| && PointsTo(next, gs, k, k + 1)
  }

  ghost predicate AllInSpan(s: Domain, gs: seq<nat>) {
    forall k :: 0 <= k < |gs| ==> gs[k] in s.span
  }

  /** The group masks are non-empty, pairwise disjoint, and cover the span and nothing else. */
  lemma GroupsPartitionSpan(s: Domain, cpus: seq<set<nat>>, next: seq<Option<nat>>)
    requires IsRing(s, cpus, next)
    ensures Groups(s) != []
    ensures forall k :: 0 <= k < |Groups(s)| ==> cpus[Groups(s)[k]] != {} && cpus[Groups(s)[k]] <= s.span
    ensures forall j, k :: 0 <= j < k < |Groups(s)| ==> cpus[Groups(s)[j]] !! cpus[Groups(s)[k]]
    ensures forall c :: c in s.span ==> GetGroup(s, c) in Groups(s) && c in cpus[GetGroup(s, c)]
  {
    var gs := Groups(s);
    LeadersAre(s, s.n);
    forall j, k | 0 <= j < k < |gs| ensures cpus[gs[j]] !! cpus[gs[k]] {
      forall c | c in s.Part(gs[j]) && c in s.Part(gs[k]) ensures false {
        SameGroup(s, gs[j], c);
        SameGroup(s, gs[k], c);
      }
    }
    forall c | c in s.span ensures GetGroup(s, c) in gs && c in cpus[GetGroup(s, c)] {
      GroupFacts(s, c);
      var k := IndexOfGroup(s, c);
    }
    var k := IndexOfGroup(s, FirstCpu(s));
  }

  /** Following the links m times from group g; None when a link is missing. */
  function Follow(next: seq<Option<nat>>, g: nat, m: nat): Option<nat> {
    if m == 0 then Some(g)
    else
      var h := Follow(next, g, m - 1);
      if h.Some? && h.value < |next| then next[h.value] else None
  }

  lemma {:induction false} FollowRing(
      s: Domain, cpus: seq<set<nat>>, next: seq<Option<nat>>, gs: seq<nat>, k: nat, m: nat)
    requires IsRing(s, cpus, next) && gs == Groups(s) && k < |gs| && m <= |gs|
    ensures Follow(next, gs[k], m) == Some(gs[Turn(k, m, |gs|)])
  {
    if m == 0 {
    } else {
      FollowRing(s, cpus, next, gs, k, m - 1);
      NextInRing(s, cpus, next, gs, Turn(k, m - 1, |gs|));
    }
  }

  lemma NextInRing(s: Domain, cpus: seq<set<nat>>, next: seq<Option<nat>>, gs: seq<nat>, k: nat)
    requires IsRing(s, cpus, next) && gs == Groups(s) && k < |gs|
    ensures gs[k] < |next| && next[gs[k]] == Some(gs[Turn(k, 1, |gs|)])
  {
    assert PointsTo(next, gs, k, Turn(k, 1, |gs|));
  }

  /** The links form one cycle: from any group, the first |Groups| steps reach every group once and the next is back. */
  lemma SingleCycle(s: Domain, cpus: seq<set<nat>>, next: seq<Option<nat>>, gs: seq<nat>, k: nat, j: nat)
    requires IsRing(s, cpus, next) && gs == Groups(s) && k < |gs| && j < |gs|
    ensures Follow(next, gs[k], |gs|) == Some(gs[k])
    ensures exists m: nat :: m < |gs| && Follow(next, gs[k], m) == Some(gs[j])
    ensures forall m: nat :: 0 < m < |gs| ==> Follow(next, gs[k], m) != Some(gs[k])
  {
    FollowRing(s, cpus, next, gs, k, |gs|);
    FollowRing(s, cpus, next, gs, k, if j >= k then j - k else j + |gs| - k);
    forall m: nat | 0 < m < |gs| ensures Follow(next, gs[k], m) != Some(gs[k]) { NotBackYet(s, cpus, next, gs, k, m); }
  }

  lemma NotBackYet(s: Domain, cpus: seq<set<nat>>, next: seq<Option<nat>>, gs: seq<nat>, k: nat, m: nat)
    requires IsRing(s, cpus, next) && gs == Groups(s) && k < |gs| && 0 < m < |gs|
    ensures Follow(next, gs[k], m) != Some(gs[k])
  {
    FollowRing(s, cpus, next, gs, k, m);
    LeadersAre(s, s.n);
    Differ(gs, k, Turn(k, m, |gs|));
  }

  lemma Differ(gs: seq<nat>, j: nat, k: nat)
    requires Increasing(gs) && j < |gs| && k < |gs| && j != k
    ensures gs[j] != gs[k]
  {
  }

  // ---------------------------------------------------------------- the ring, group by group

  /** The groups gs have their masks, and each but the last points to the next. */
  ghost predicate Linked(s: Domain, gs: seq<nat>, cpus: seq<set<nat>>, next: seq<Option<nat>>) {
    && |cpus| == |next| == s.n && AllInSpan(s, gs)
    && (forall k :: 0 <= k < |gs| ==> cpus[gs[k]] == s.Part(gs[k]))
    && (forall k :: 0 <= k < |gs| - 1 ==> Onward(next, gs, k))
  }

  function First(gs: seq<nat>): Option<nat> {
    if gs == [] then None else Some(gs[0])
  }

  function Last(gs: seq<nat>): Option<nat> {
    if gs == [] then None else Some(gs[|gs| - 1])
  }

  /** The CPUs whose group is below i. */
  function Covered(s: Domain, i: nat): set<nat> {
    set c | c in s.span && GetGroup(s, c) < i
  }

  /** A CPU not yet covered is the first of its group, and covers that group. */
  lemma CoveredStep(s: Domain, i: nat)
    ensures i in s.span && i !in Covered(s, i) ==> GetGroup(s, i) == i && Covered(s, i + 1) == Covered(s, i) + s.Part(i)
    ensures !(i in s.span && i !in Covered(s, i)) ==>
      Covered(s, i + 1) == Covered(s, i) && Leaders(s, i + 1) == Leaders(s, i)
  {
    if i in s.span {
      GroupFacts(s, i);
      forall c | c in s.span
        ensures GetGroup(s, c) in s.span && (GetGroup(s, i) == i ==> (GetGroup(s, c) == i <==> c in s.Part(i)))
      {
        GroupFacts(s, c);
        SameGroup(s, i, c);
      }
    }
    forall c | c in s.span && GetGroup(s, c) == i ensures i in s.span && GetGroup(s, i) == i { GroupFacts(s, c); }
  }

  lemma LinkOne(s: Domain, gs: seq<nat>, i: nat, cpus: seq<set<nat>>, next: seq<Option<nat>>, last: nat)
    requires i in s.span && Linked(s, gs, cpus, next) && gs != [] && last == gs[|gs| - 1]
    requires Increasing(gs + [i])
    ensures last < |next| && Linked(s, gs + [i], cpus[i := s.Part(i)], next[last := Some(i)])
  {
    var all := gs + [i];
    forall k | 0 <= k < |gs| ensures all[k] == gs[k] && gs[k] != i && cpus[i := s.Part(i)][gs[k]] == s.Part(gs[k]) {
      assert all[k] < all[|gs|];
    }
    var next' := next[last := Some(i)];
    forall k | 0 <= k < |all| - 1 ensures Onward(next', all, k) {
      if k < |gs| - 1 {
        assert Onward(next, gs, k);
        assert all[k] < all[|gs| - 1];
      }
    }
  }

  lemma LinkFirst(s: Domain, i: nat, cpus: seq<set<nat>>, next: seq<Option<nat>>)
    requires i in s.span && |cpus| == |next| == s.n
    ensures Linked(s, [i], cpus[i := s.Part(i)], next)
  {
  }

  lemma LeaderStep(s: Domain, i: nat)
    requires i in s.span && GetGroup(s, i) == i
    ensures Leaders(s, i + 1) == Leaders(s, i) + [i] && Increasing(Leaders(s, i) + [i])
  {
    LeadersAre(s, i + 1);
  }

  lemma CloseRing(s: Domain, cpus: seq<set<nat>>, next: seq<Option<nat>>)
    requires Linked(s, Groups(s), cpus, next) && Groups(s) != []
    ensures Last(Groups(s)).value < |next|
    ensures IsRing(s, cpus, next[Last(Groups(s)).value := First(Groups(s))])
  {
    LeadersAre(s, s.n);
    var gs := Groups(s);
    forall k | 0 <= k < |gs| ensures PointsTo(next[Last(gs).value := First(gs)], gs, k, Turn(k, 1, |gs|)) {
      if k < |gs| - 1 {
        assert Onward(next, gs, k);
        Differ(gs, k, |gs| - 1);
      }
    }
  }

  // ---------------------------------------------------------------- the construction, in place

  /** sd_data of one level: the group of every CPU, and sd->groups of every CPU's domain. */
  class SdData {
    const s: Domain
    const cpus: array<set<nat>>
    const next: array<Option<nat>>
    const groups: array<Option<nat>>

    ghost predicate Valid() {
      cpus.Length == next.Length == groups.Length == s.n && next != groups
    }

    constructor (s: Domain)
      ensures Valid() && this.s == s && fresh(cpus) && fresh(next) && fresh(groups)
      ensures forall c :: 0 <= c < s.n ==> cpus[c] == {} && groups[c] == None
    {
      this.s := s;
      cpus := new set<nat>[s.n](_ => {});
      next := new Option<nat>[s.n](_ => None);
      groups := new Option<nat>[s.n](_ => None);
    }

    /** The inner loop of build_sched_groups: collects the CPUs of one group. */
    method Fill(g: nat, covered0: set<nat>) returns (covered: set<nat>)
      requires Valid() && g in s.span && GetGroup(s, g) == g && cpus[g] == {}
      modifies cpus
      ensures cpus[..] == old(cpus[..])[g := s.Part(g)] && covered == covered0 + s.Part(g)
    {
      covered := covered0;
      ghost var part := {};
      for j := 0 to s.n
        invariant part == set c | c in s.Part(g) && c < j
        invariant cpus[..] == old(cpus[..])[g := part] && covered == covered0 + part
      {
        if j in s.span {
          SameGroup(s, g, j);
          if GetGroup(s, j) == g {
            covered := covered + {j};
            cpus[g] := cpus[g] + {j};
            part := part + {j};
          }
        }
      }
      assert part == s.Part(g);
    }

    /** build_sched_groups: every CPU finds its group, the first one builds the ring. */
    method BuildSchedGroups(cpu: nat)
      requires Valid() && cpu in s.span
      requires cpu == FirstCpu(s) ==> forall c :: c in s.span ==> cpus[c] == {}
      modifies cpus, next, groups
      ensures groups[..] == old(groups[..])[cpu := Some(GetGroup(s, cpu))]
      ensures if cpu == FirstCpu(s) then IsRing(s, cpus[..], next[..])
        else cpus[..] == old(cpus[..]) && next[..] == old(next[..])
      ensures forall c :: 0 <= c < s.n && c !in s.span ==> cpus[c] == old(cpus[c]) && next[c] == old(next[c])
    {
      groups[cpu] := Some(GetGroup(s, cpu));
      if cpu != FirstCpu(s) { return; }
      BuildRing();
    }

    /** The outer loop of build_sched_groups. */
    method BuildRing()
      requires Valid() && forall c :: c in s.span ==> cpus[c] == {}
      modifies cpus, next
      ensures IsRing(s, cpus[..], next[..])
      ensures forall c :: 0 <= c < s.n && c !in s.span ==> cpus[c] == old(cpus[c]) && next[c] == old(next[c])
    {
      var covered: set<nat> := {};
      var first: Option<nat>, last: Option<nat> := None, None;
      for i := 0 to s.n
        invariant Done(i, covered, first, last)
        invariant forall c :: 0 <= c < s.n && c !in s.span ==> cpus[c] == old(cpus[c]) && next[c] == old(next[c])
      {
        covered, first, last := VisitCpu(i, covered, first, last);
      }
      ghost var k := IndexOfGroup(s, FirstCpu(s));
      CloseRing(s, cpus[..], next[..]);
      next[last.value] := first;
    }

    method VisitCpu(i: nat, covered0: set<nat>, first0: Option<nat>, last0: Option<nat>)
      returns (covered: set<nat>, first: Option<nat>, last: Option<nat>)
      requires Valid() && i < s.n && Done(i, covered0, first0, last0)
      modifies cpus, next
      ensures Done(i + 1, covered, first, last)
      ensures forall c :: 0 <= c < s.n && c !in s.span ==> cpus[c] == old(cpus[c]) && next[c] == old(next[c])
    {
      covered, first, last := covered0, first0, last0;
      CoveredStep(s, i);
      if i in s.span && i !in covered {
        covered := Append(i, covered, last);
        LeaderStep(s, i);
        if first == None { first := Some(i); }
        last := Some(i);
      }
    }

    /** What the outer loop has done when it comes to i. */
    ghost predicate Done(i: nat, covered: set<nat>, first: Option<nat>, last: Option<nat>)
      requires Valid()
      reads cpus, next
    {
      && Linked(s, Leaders(s, i), cpus[..], next[..]) && covered == Covered(s, i)
      && first == First(Leaders(s, i)) && last == Last(Leaders(s, i))
      && forall c :: c in s.span && c >= i ==> cpus[c] == {}
    }

    /** Makes the group of i and links it behind the last one. */
    method Append(i: nat, covered0: set<nat>, last: Option<nat>) returns (covered: set<nat>)
      requires Valid() && i in s.span && GetGroup(s, i) == i && cpus[i] == {}
      requires Linked(s, Leaders(s, i), cpus[..], next[..]) && last == Last(Leaders(s, i))
      modifies cpus, next
      ensures Linked(s, Leaders(s, i + 1), cpus[..], next[..]) && covered == covered0 + s.Part(i)
      ensures cpus[..] == old(cpus[..])[i := s.Part(i)]
      ensures forall c :: 0 <= c < s.n && c !in s.span ==> next[c] == old(next[c])
    {
      LeaderStep(s, i);
      if last.Some? {
        LinkOne(s, Leaders(s, i), i, cpus[..], next[..], last.value);
      } else {
        LinkFirst(s, i, cpus[..], next[..]);
      }
      covered := Fill(i, covered0);
      if last.Some? { next[last.value] := Some(i); }
    }

    /** Every CPU's sd->groups is the member of the ring that holds the CPU. */
    ghost predicate Built()
      requires Valid()
      reads cpus, next, groups
    {
      IsRing(s, cpus[..], next[..]) && forall c :: c in s.span ==> groups[c] == Some(GetGroup(s, c))
    }

    /** The loop of build_sched_domains over the CPUs of one domain. */
    method BuildAll()
      requires Valid() && forall c :: c in s.span ==> cpus[c] == {}
      modifies cpus, next, groups
      ensures Built()
    {
      for i := 0 to s.n
        invariant i <= FirstCpu(s) ==> forall c :: c in s.span ==> cpus[c] == {}
        invariant i > FirstCpu(s) ==> IsRing(s, cpus[..], next[..])
        invariant forall c :: c in s.span && c < i ==> groups[c] == Some(GetGroup(s, c))
      {
        if i in s.span { BuildSchedGroups(i); }
      }
    }

    /** init_sched_groups_capacity: the do-while loop goes once around the ring. */
    method InitCapacity(cpu: nat, weight: array<nat>)
      requires Valid() && Built() && cpu in s.span && weight.Length == s.n
      modifies weight
      ensures forall g :: g in Groups(s) ==> weight[g] == |s.Part(g)|
      ensures forall c :: 0 <= c < s.n && c !in Groups(s) ==> weight[c] == old(weight[c])
    {
      ghost var k := IndexOfGroup(s, cpu);
      GroupsAscend(s);
      GoRound(Groups(s), k, groups[cpu].value, weight);
    }

    method GoRound(ghost gs: seq<nat>, ghost k: nat, start: nat, weight: array<nat>)
      requires Valid() && IsRing(s, cpus[..], next[..]) && gs == Groups(s) && weight.Length == s.n
      requires k < |gs| && start == gs[k] && Increasing(gs)
      modifies weight
      ensures forall g :: g in gs ==> g < s.n && weight[g] == |s.Part(g)|
      ensures forall c :: 0 <= c < s.n && c !in gs ==> weight[c] == old(weight[c])
    {
      ghost var m: nat := 0;
      var sg := start;
      var around := false;
      while !around
        invariant m <= |gs| && sg == gs[Turn(k, m, |gs|)] && (around <==> m == |gs|)
        invariant Weighed(gs, k, m, weight[..])
        invariant forall c :: 0 <= c < s.n && c !in gs ==> weight[c] == old(weight[c])
        decreases |gs| - m
      {
        sg := Weigh(gs, k, m, sg, weight);
        m := m + 1;
        around := sg == start;
        BackAt(gs, k, m);
      }
      AllWeighed(gs, k, weight[..]);
    }

    lemma AllWeighed(gs: seq<nat>, k: nat, weight: seq<nat>)
      requires k < |gs| && Weighed(gs, k, |gs|, weight)
      ensures forall g :: g in gs ==> g < |weight| && weight[g] == |s.Part(g)|
    {
      forall g | g in gs ensures g < |weight| && weight[g] == |s.Part(g)| {
        var j :| 0 <= j < |gs| && gs[j] == g;
        assert Steps(k, j, |gs|) < |gs|;
      }
    }

    /** The groups at most m steps ahead of the k-th have their weight. */
    ghost predicate Weighed(gs: seq<nat>, k: nat, m: nat, weight: seq<nat>) {
      forall j :: 0 <= j < |gs| && Steps(k, j, |gs|) < m ==> gs[j] < |weight| && weight[gs[j]] == |s.Part(gs[j])|
    }

    method Weigh(ghost gs: seq<nat>, ghost k: nat, ghost m: nat, sg: nat, weight: array<nat>) returns (sg': nat)
      requires Valid() && IsRing(s, cpus[..], next[..]) && gs == Groups(s) && weight.Length == s.n
      requires k < |gs| && m < |gs| && sg == gs[Turn(k, m, |gs|)] && Weighed(gs, k, m, weight[..])
      modifies weight
      ensures sg' == gs[Turn(k, m + 1, |gs|)] && Weighed(gs, k, m + 1, weight[..])
      ensures sg < s.n && weight[..] == old(weight[..])[sg := |s.Part(sg)|]
    {
      NextInRing(s, cpus[..], next[..], gs, Turn(k, m, |gs|));
      ghost var before := weight[..];
      weight[sg] := |cpus[sg]|;
      sg' := next[sg].value;
      LeadersAre(s, s.n);
      forall j | 0 <= j < |gs| && Steps(k, j, |gs|) < m + 1
        ensures gs[j] < |weight[..]| && weight[..][gs[j]] == |s.Part(gs[j])|
      {
        if j != Turn(k, m, |gs|) { Differ(gs, j, Turn(k, m, |gs|)); }
      }
    }
  }

  /** How many links lead from the k-th group to the j-th. */
  function Steps(k: nat, j: nat, n: nat): int {
    if j >= k then j - k else j + n - k
  }

  lemma BackAt(gs: seq<nat>, k: nat, m: nat)
    requires Increasing(gs) && k < |gs| && 0 < m <= |gs|
    ensures gs[Turn(k, m, |gs|)] == gs[k] <==> m == |gs|
  {
    if m < |gs| { Differ(gs, k, Turn(k, m, |gs|)); }
  }
}
