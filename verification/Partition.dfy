/** Moving from one partition of the CPUs into scheduling domains to another (assg4/core.c, partition_sched_domains). */
module Partition {
  import opened Basics

  /** sched_domain_attr has one field, relax_domain_level; SD_ATTR_INIT sets it to -1. */
  const ATTR_INIT: int := -1

  /** doms_cur or doms_new with its attributes; no attributes stand for the initial ones. */
  datatype Doms = Doms(masks: seq<set<nat>>, attrs: Option<seq<int>>)

  /** What a CPU is attached to: the map the domains were built for, the attributes, and which build it was. */
  datatype Attachment = Attachment(mask: set<nat>, attr: int, build: nat)

  predicate WellFormed(d: Doms, n: nat) {
    && (forall k :: 0 <= k < |d.masks| ==> forall c :: c in d.masks[k] ==> c < n)
    && (d.attrs.Some? ==> |d.attrs.value| >= |d.masks|)
    && (forall j, k :: 0 <= j < k < |d.masks| ==> d.masks[j] !! d.masks[k])
  }

  /** The attributes of the k-th domain, taking null as the default. */
  function AttrOf(d: Doms, k: nat): int
    requires k < |d.masks| && (d.attrs.Some? ==> |d.attrs.value| >= |d.masks|)
  {
    if d.attrs.None? then ATTR_INIT else d.attrs.value[k]
  }

  /** dattrs_equal */
  predicate DattrsEqual(cur: Doms, i: nat, new_: Doms, j: nat)
    requires i < |cur.masks| && (cur.attrs.Some? ==> |cur.attrs.value| >= |cur.masks|)
    requires j < |new_.masks| && (new_.attrs.Some? ==> |new_.attrs.value| >= |new_.masks|)
  {
    (cur.attrs.None? && new_.attrs.None?) || AttrOf(cur, i) == AttrOf(new_, j)
  }

  /** The k-th domain of `a` is also in `b`, with the same attributes. */
  predicate InBoth(a: Doms, k: nat, b: Doms, n: nat)
    requires WellFormed(a, n) && WellFormed(b, n) && k < |a.masks|
  {
    exists j :: 0 <= j < |b.masks| && a.masks[k] == b.masks[j] && AttrOf(a, k) == AttrOf(b, j)
  }

  /** The request: doms_new may be null, and then stands for the active CPUs that are not isolated. */
  datatype Request = Request(ndoms: nat, doms: Option<seq<set<nat>>>, attrs: Option<seq<int>>)

  predicate Sensible(r: Request, n: nat) {
    && (r.doms.Some? ==> |r.doms.value| == r.ndoms && WellFormed(Doms(r.doms.value, r.attrs), n))
    && (r.doms.None? ==> r.ndoms <= 1 && r.attrs.None?)
  }

  /** What the request asks for. */
  function Target(r: Request, active: set<nat>, isolated: set<nat>): Doms {
    if r.doms.Some? then Doms(r.doms.value, r.attrs)
    else Doms(if r.ndoms == 0 then [] else [active - isolated], None)
  }

  /** A request without masks asks for the active CPUs that are not isolated, in one domain, or for none at all. */
  lemma TargetIs(r: Request, active: set<nat>, isolated: set<nat>, n: nat)
    requires Sensible(r, n)
    ensures var d := Target(r, active, isolated);
      && (r.doms.Some? ==> d.masks == r.doms.value && d.attrs == r.attrs)
      && (r.doms.None? ==> |d.masks| == r.ndoms && d.attrs == None)
      && (r.doms.None? && r.ndoms == 1 ==> forall c :: c in d.masks[0] <==> c in active && c !in isolated)
  {
  }

  /** Without attributes every domain has relax_domain_level -1. */
  lemma NoAttributesMeansInitial(d: Doms, k: nat)
    requires k < |d.masks| && d.attrs.None?
    ensures AttrOf(d, k) == -1
  {
  }

  /** Once a request without masks has been met no isolated or inactive CPU is attached, and all others are or none. */
  lemma IsolatedStayDetached(att: seq<Option<Attachment>>, r: Request, active: set<nat>, isolated: set<nat>, c: nat)
    requires Sensible(r, |att|) && r.doms.None? && c < |att| && Reflects(att, Target(r, active, isolated))
    ensures att[c].Some? <==> r.ndoms == 1 && c in active && c !in isolated
    ensures att[c].Some? ==> att[c].value.mask == active - isolated && att[c].value.attr == -1
  {
    var d := Target(r, active, isolated);
    TargetIs(r, active, isolated, |att|);
    if r.ndoms == 1 { assert AttachedAs(att, d.masks[0], AttrOf(d, 0)); }
  }

  /** Every CPU of a mask is attached to domains of that mask and its attributes; no other CPU is attached. */
  ghost predicate Reflects(att: seq<Option<Attachment>>, d: Doms) {
    && WellFormed(d, |att|)
    && (forall k :: 0 <= k < |d.masks| ==> AttachedAs(att, d.masks[k], AttrOf(d, k)))
    && (forall c :: 0 <= c < |att| && att[c].Some? ==> exists k :: 0 <= k < |d.masks| && c in d.masks[k])
  }

  ghost predicate AttachedAs(att: seq<Option<Attachment>>, mask: set<nat>, attr: int) {
    forall c :: c in mask ==> c < |att| && att[c].Some? && att[c].value.mask == mask && att[c].value.attr == attr
  }

  /** The CPUs of the first i domains of `a` that are not left as they are. */
  function Changed(a: Doms, b: Doms, n: nat, rebuild: bool, i: nat): set<nat>
    requires WellFormed(a, n) && WellFormed(b, n) && i <= |a.masks|
  {
    if i == 0 then {}
    else Changed(a, b, n, rebuild, i - 1) + if !rebuild && InBoth(a, i - 1, b, n) then {} else a.masks[i - 1]
  }

  lemma {:induction false} ChangedIs(a: Doms, b: Doms, n: nat, rebuild: bool, i: nat, c: nat)
    requires WellFormed(a, n) && WellFormed(b, n) && i <= |a.masks|
    ensures c in Changed(a, b, n, rebuild, i) <==>
      exists k :: 0 <= k < i && c in a.masks[k] && (rebuild || !InBoth(a, k, b, n))
  {
    if i == 0 {
    } else {
      ChangedIs(a, b, n, rebuild, i - 1, c);
    }
  }

  class Domains {
    var cur: Doms
    var builds: nat
    const att: array<Option<Attachment>>

    ghost predicate Valid()
      reads this, att
    {
      Reflects(att[..], cur) && forall c :: 0 <= c < att.Length && att[c].Some? ==> att[c].value.build < builds
    }

    constructor (n: nat)
      ensures Valid() && cur == Doms([], None) && att.Length == n && fresh(att)
    {
      cur, builds := Doms([], None), 0;
      att := new Option<Attachment>[n](_ => None);
    }

    /** detach_destroy_domains */
    method Detach(mask: set<nat>)
      modifies att
      ensures forall c :: 0 <= c < att.Length ==> att[c] == if c in mask then None else old(att[c])
    {
      for i := 0 to att.Length
        invariant forall c :: 0 <= c < att.Length ==> att[c] == if c in mask && c < i then None else old(att[c])
      {
        if i in mask { att[i] := None; }
      }
    }

    /** build_sched_domains, in the case that it succeeds */
    method Build(mask: set<nat>, attr: int)
      modifies att, this`builds
      ensures builds == old(builds) + 1
      ensures forall c :: 0 <= c < att.Length ==>
        att[c] == if c in mask then Some(Attachment(mask, attr, old(builds))) else old(att[c])
    {
      for i := 0 to att.Length
        invariant builds == old(builds)
        invariant forall c :: 0 <= c < att.Length ==>
          att[c] == if c in mask && c < i then Some(Attachment(mask, attr, old(builds))) else old(att[c])
      {
        if i in mask { att[i] := Some(Attachment(mask, attr, builds)); }
      }
      builds := builds + 1;
    }

    /** The search loops that lead to match1 and match2. */
    method Matches(a: Doms, i: nat, b: Doms, newTopology: bool) returns (found: bool)
      requires WellFormed(a, att.Length) && WellFormed(b, att.Length) && i < |a.masks|
      ensures found <==> !newTopology && InBoth(a, i, b, att.Length)
    {
      var j := 0;
      while j < |b.masks| && !newTopology
        invariant j <= |b.masks|
        invariant forall k :: 0 <= k < j ==> !(a.masks[i] == b.masks[k] && AttrOf(a, i) == AttrOf(b, k))
      {
        if a.masks[i] == b.masks[j] && DattrsEqual(a, i, b, j) { return true; }
        j := j + 1;
      }
      return false;
    }

    /** The first loop: every current domain that is not wanted any more is detached. */
    method DestroyDeleted(wanted: Doms, newTopology: bool)
      requires WellFormed(cur, att.Length) && WellFormed(wanted, att.Length)
      modifies att
      ensures forall c :: 0 <= c < att.Length ==>
        att[c] == if c in Changed(cur, wanted, att.Length, newTopology, |cur.masks|) then None else old(att[c])
    {
      for i := 0 to |cur.masks|
        invariant forall c :: 0 <= c < att.Length ==>
          att[c] == if c in Changed(cur, wanted, att.Length, newTopology, i) then None else old(att[c])
      {
        var found := Matches(cur, i, wanted, newTopology);
        if !found { Detach(cur.masks[i]); }
      }
    }

    /** The second loop: every wanted domain that is not there already is built. */
    method BuildNew(wanted: Doms, present: Doms, newTopology: bool)
      requires WellFormed(wanted, att.Length) && WellFormed(present, att.Length)
      modifies att, this`builds
      ensures builds >= old(builds)
      ensures forall k :: 0 <= k < |wanted.masks| && (newTopology || !InBoth(wanted, k, present, att.Length)) ==>
        BuiltAs(att[..], wanted.masks[k], AttrOf(wanted, k), old(builds), builds)
      ensures forall c | 0 <= c < att.Length && c !in Changed(wanted, present, att.Length, newTopology, |wanted.masks|)
        :: att[c] == old(att[c])
    {
      for i := 0 to |wanted.masks|
        invariant builds >= old(builds)
        invariant forall k :: 0 <= k < i && (newTopology || !InBoth(wanted, k, present, att.Length)) ==>
          BuiltAs(att[..], wanted.masks[k], AttrOf(wanted, k), old(builds), builds)
        invariant forall c :: 0 <= c < att.Length && c !in Changed(wanted, present, att.Length, newTopology, i) ==>
          att[c] == old(att[c])
      {
        var found := Matches(wanted, i, present, newTopology);
        if !found { Build(wanted.masks[i], AttrOf(wanted, i)); }
      }
    }

    /**
      partition_sched_domains: afterwards every CPU of a requested mask is attached to a domain of that
      mask and its attributes, and no other CPU is attached. A domain that is there already is left
      alone, unless the topology has changed or no masks were passed; every other one is built anew.
     */
    method PartitionSchedDomains(r: Request, active: set<nat>, isolated: set<nat>, newTopology: bool)
      requires Valid() && Sensible(r, att.Length) && forall c :: c in active ==> c < att.Length
      modifies this, att
      ensures Valid() && cur == Target(r, active, isolated)
      ensures forall k, c :: 0 <= k < |cur.masks| && c in cur.masks[k] ==>
        (if !newTopology && r.doms.Some? && InBoth(cur, k, old(cur), att.Length) then att[c] == old(att[c])
         else att[c].value.build >= old(builds))
    {
      ghost var rebuild := newTopology || r.doms.None?;
      ghost var att0, builds0 := att[..], builds;
      var target, none := Target(r, active, isolated), Doms([], None);
      EmptyKeepsNothing(cur, target, att.Length, newTopology, |cur.masks|);
      EmptyKeepsNothing(target, cur, att.Length, newTopology, |target.masks|);
      DestroyDeleted(if r.doms.Some? then target else none, newTopology);
      ghost var mid := att[..];
      BuildNew(target, if r.doms.Some? then cur else none, newTopology);
      ghost var s := Change(att0, mid, att[..], cur, target, rebuild, builds0, builds);
      assert TwoLoops(s);
      Reached(s);
      cur := target;
    }
  }

  /** Every CPU of the mask is attached by one of the builds from lo on. */
  ghost predicate BuiltAs(att: seq<Option<Attachment>>, mask: set<nat>, attr: int, lo: nat, hi: nat) {
    AttachedAs(att, mask, attr) && forall c :: c in mask ==> lo <= att[c].value.build < hi
  }

  /** Searching an empty list keeps nothing, just as forcing a rebuild does. */
  lemma {:induction false} EmptyKeepsNothing(a: Doms, b: Doms, n: nat, rebuild: bool, i: nat)
    requires WellFormed(a, n) && WellFormed(b, n) && i <= |a.masks|
    ensures Changed(a, Doms([], None), n, rebuild, i) == Changed(a, b, n, true, i)
  {
    if i == 0 {
    } else {
      EmptyKeepsNothing(a, b, n, rebuild, i - 1);
    }
  }

  /** The attachments before, between and after the two loops, and the numbers of the builds made. */
  datatype Change = Change(
    att0: seq<Option<Attachment>>, mid: seq<Option<Attachment>>, att: seq<Option<Attachment>>,
    cur: Doms, target: Doms, rebuild: bool, lo: nat, hi: nat)

  /** What the two loops do, one after the other. */
  ghost predicate TwoLoops(s: Change) {
    var n := |s.att0|;
    && |s.mid| == |s.att| == n && s.lo <= s.hi
    && Reflects(s.att0, s.cur) && WellFormed(s.target, n)
    && (forall c :: 0 <= c < n && s.att0[c].Some? ==> s.att0[c].value.build < s.lo)
    && (forall c :: 0 <= c < n ==>
        s.mid[c] == (if c in Changed(s.cur, s.target, n, s.rebuild, |s.cur.masks|) then None else s.att0[c]))
    && (forall k :: 0 <= k < |s.target.masks| && (s.rebuild || !InBoth(s.target, k, s.cur, n)) ==>
        BuiltAs(s.att, s.target.masks[k], AttrOf(s.target, k), s.lo, s.hi))
    && (forall c :: 0 <= c < n && c !in Changed(s.target, s.cur, n, s.rebuild, |s.target.masks|) ==>
        s.att[c] == s.mid[c])
  }

  /** A domain found in both partitions is touched by neither loop. */
  lemma KeptCpu(s: Change, k: nat, c: nat)
    requires TwoLoops(s) && k < |s.target.masks| && c in s.target.masks[k]
    requires !s.rebuild && InBoth(s.target, k, s.cur, |s.att0|)
    ensures c < |s.att0| && s.att[c] == s.att0[c]
    ensures s.att[c].Some? && s.att[c].value.mask == s.target.masks[k] && s.att[c].value.attr == AttrOf(s.target, k)
  {
    var n := |s.att0|;
    var j :| 0 <= j < |s.cur.masks| && s.target.masks[k] == s.cur.masks[j] && AttrOf(s.target, k) == AttrOf(s.cur, j);
    assert AttachedAs(s.att0, s.cur.masks[j], AttrOf(s.cur, j));
    ChangedIs(s.target, s.cur, n, s.rebuild, |s.target.masks|, c);
    ChangedIs(s.cur, s.target, n, s.rebuild, |s.cur.masks|, c);
    assert InBoth(s.cur, j, s.target, n);
  }

  /** A CPU still attached at the end is in a requested mask. */
  lemma AttachedIsWanted(s: Change, c: nat) returns (k: nat)
    requires TwoLoops(s) && c < |s.att| && s.att[c].Some?
    ensures k < |s.target.masks| && c in s.target.masks[k]
    ensures s.att[c].value.build < s.hi
  {
    var n := |s.att0|;
    ChangedIs(s.target, s.cur, n, s.rebuild, |s.target.masks|, c);
    if c in Changed(s.target, s.cur, n, s.rebuild, |s.target.masks|) {
      k :| 0 <= k < |s.target.masks| && c in s.target.masks[k] && (s.rebuild || !InBoth(s.target, k, s.cur, n));
      assert BuiltAs(s.att, s.target.masks[k], AttrOf(s.target, k), s.lo, s.hi);
    } else {
      ChangedIs(s.cur, s.target, n, s.rebuild, |s.cur.masks|, c);
      var j :| 0 <= j < |s.cur.masks| && c in s.cur.masks[j];
      assert !s.rebuild && InBoth(s.cur, j, s.target, n);
      k :| 0 <= k < |s.target.masks| && s.cur.masks[j] == s.target.masks[k] && AttrOf(s.cur, j) == AttrOf(s.target, k);
    }
  }

  /** The two loops lead to the requested partition, and leave what is in both alone. */
  lemma Reached(s: Change)
    requires TwoLoops(s)
    ensures Reflects(s.att, s.target)
    ensures forall c :: 0 <= c < |s.att| && s.att[c].Some? ==> s.att[c].value.build < s.hi
    ensures forall k, c :: 0 <= k < |s.target.masks| && c in s.target.masks[k] ==>
      (if !s.rebuild && InBoth(s.target, k, s.cur, |s.att0|) then s.att[c] == s.att0[c]
       else s.att[c].value.build >= s.lo)
  {
    forall k | 0 <= k < |s.target.masks|
      ensures AttachedAs(s.att, s.target.masks[k], AttrOf(s.target, k))
      ensures forall c :: c in s.target.masks[k] ==>
        (if !s.rebuild && InBoth(s.target, k, s.cur, |s.att0|) then s.att[c] == s.att0[c]
         else s.att[c].value.build >= s.lo)
    {
      if !s.rebuild && InBoth(s.target, k, s.cur, |s.att0|) {
        forall c | c in s.target.masks[k]
          ensures c < |s.att| && s.att[c].Some? && s.att[c] == s.att0[c]
          ensures s.att[c].value.mask == s.target.masks[k] && s.att[c].value.attr == AttrOf(s.target, k)
        {
          KeptCpu(s, k, c);
        }
      } else {
        assert BuiltAs(s.att, s.target.masks[k], AttrOf(s.target, k), s.lo, s.hi);
      }
    }
    forall c | 0 <= c < |s.att| && s.att[c].Some?
      ensures s.att[c].value.build < s.hi && exists k :: 0 <= k < |s.target.masks| && c in s.target.masks[k]
    {
      var k := AttachedIsWanted(s, c);
    }
  }
}
