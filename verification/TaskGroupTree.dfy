/**
  The task-group tree and its non-recursive walk (assg4/core.c, walk_tg_tree_from).

  Groups are numbered in creation order, and a group is always created below an existing one,
  so a parent's number is smaller than its children's. Group 0 is root_task_group.
 */
module TaskGroupTree {
  import opened Basics

  const ROOT: nat := 0

  datatype Groups = Groups(next: nat, parent: map<nat, nat>, children: map<nat, seq<nat>>) {

    predicate Valid() {
      && ROOT in children && ROOT !in parent && parent.Keys == children.Keys - {ROOT}
      && (forall g :: g in children ==> g < next)
      && (forall g, k :: g in children && 0 <= k < |children[g]| ==>
          children[g][k] in parent && parent[children[g][k]] == g && g < children[g][k])
      && (forall g, j, k :: g in children && 0 <= j < k < |children[g]| ==> children[g][j] != children[g][k])
      && (forall g :: g in parent ==> parent[g] in children && g in children[parent[g]])
    }

    predicate Has(g: nat) {
      g in children
    }

    /** Position of g in its parent's list of children. */
    function IndexOf(g: nat): (k: nat)
      requires Valid() && g in parent
      ensures k < |children[parent[g]]| && children[parent[g]][k] == g
    {
      Find(children[parent[g]], g)
    }
  }

  type Tree = t: Groups | t.Valid() witness Groups(1, map[], map[0 := []])

  function Find(s: seq<nat>, x: nat): (k: nat)
    requires x in s
    ensures k < |s| && s[k] == x
  {
    if s[0] == x then 0 else 1 + Find(s[1..], x)
  }

  /** One call of a visitor: `down` on entry to a group, `up` when leaving it for good. */
  datatype Call = Enter(g: nat) | Leave(g: nat)

  /** The calls of the recursive pre- and post-order visit of g's subtree. */
  function Calls(t: Tree, g: nat): seq<Call>
    requires t.Has(g)
    decreases t.next - g, |t.children[g]| + 1
  {
    [Enter(g)] + CallsFrom(t, g, 0) + [Leave(g)]
  }

  /** The calls of the visits of g's children from the k-th on, in list order. */
  function CallsFrom(t: Tree, g: nat, k: nat): seq<Call>
    requires t.Has(g) && k <= |t.children[g]|
    decreases t.next - g, |t.children[g]| - k
  {
    if k == |t.children[g]| then []
    else Calls(t, t.children[g][k]) + CallsFrom(t, g, k + 1)
  }

  /** A visitor gets the group and everything it may read or change, and returns 0 or an error. */
  type Visitor<!S> = (nat, S) -> (int, S)

  /** tg_nop */
  function Nop<S>(): Visitor<S> {
    (g: nat, s) => (0, s)
  }

  function Apply<S>(c: Call, down: Visitor<S>, up: Visitor<S>, s: S): (int, S) {
    match c
    case Enter(g) => down(g, s)
    case Leave(g) => up(g, s)
  }

  /** Makes the calls in order until one returns a non-zero value, and returns that value. */
  function RunCalls<S>(cs: seq<Call>, down: Visitor<S>, up: Visitor<S>, s: S): (int, S) {
    if cs == [] then (0, s)
    else
      var (ret, s1) := Apply(cs[0], down, up, s);
      if ret != 0 then (ret, s1) else RunCalls(cs[1..], down, up, s1)
  }

  predicate IsAncestor(t: Tree, a: nat, g: nat)
    decreases g
  {
    a == g || (g in t.parent && t.parent[g] < g && IsAncestor(t, a, t.parent[g]))
  }

  lemma ParentIsSmaller(t: Tree, g: nat)
    requires g in t.parent
    ensures t.parent[g] < g && t.Has(t.parent[g])
  {
    var k := t.IndexOf(g);
    assert t.children[t.parent[g]][k] in t.parent;
  }

  /** The calls still to come when the visit of g, inside that of `from`, is complete. */
  function After(t: Tree, from: nat, g: nat): seq<Call>
    requires t.Has(g) && IsAncestor(t, from, g)
    decreases g
  {
    if g == from then []
    else
      var p := t.parent[g];
      ParentIsSmaller(t, g);
      CallsFrom(t, p, t.IndexOf(g) + 1) + [Leave(p)] + After(t, from, p)
  }

  lemma {:induction false} RunSplit<S>(a: seq<Call>, b: seq<Call>, down: Visitor<S>, up: Visitor<S>, s: S)
    ensures RunCalls(a + b, down, up, s) ==
      (var (ret, s1) := RunCalls(a, down, up, s); if ret != 0 then (ret, s1) else RunCalls(b, down, up, s1))
  {
    if a == [] {
      assert a + b == b;
    } else {
      assert (a + b)[0] == a[0] && (a + b)[1..] == a[1..] + b;
      RunSplit(a[1..], b, down, up, Apply(a[0], down, up, s).1);
    }
  }

  lemma IndexIs(t: Tree, g: nat, k: nat)
    requires t.Has(g) && k < |t.children[g]|
    ensures t.children[g][k] in t.parent && t.parent[t.children[g][k]] == g && t.IndexOf(t.children[g][k]) == k
  {
    var j := t.IndexOf(t.children[g][k]);
  }

  /** The calls still to come with the walk at `p`: about to enter it, or at its k-th child. */
  ghost function Rest(t: Tree, from: nat, p: nat, k: nat, entering: bool): seq<Call>
    requires t.Has(p) && IsAncestor(t, from, p) && k <= |t.children[p]|
  {
    (if entering then Calls(t, p) else CallsFrom(t, p, k) + [Leave(p)]) + After(t, from, p)
  }

  lemma RestEnters(t: Tree, from: nat, p: nat, k: nat)
    requires t.Has(p) && IsAncestor(t, from, p) && k <= |t.children[p]|
    ensures Rest(t, from, p, k, true) == [Enter(p)] + Rest(t, from, p, 0, false)
  {
  }

  lemma ChildInside(t: Tree, from: nat, p: nat, c: nat)
    requires t.Has(p) && IsAncestor(t, from, p) && c in t.parent && t.parent[c] == p
    ensures t.Has(c) && IsAncestor(t, from, c) && c != from
  {
    ParentIsSmaller(t, c);
    AncestorIsNotLarger(t, from, p);
  }

  lemma RestDescends(t: Tree, from: nat, p: nat, k: nat, child: nat)
    requires t.Has(p) && IsAncestor(t, from, p) && k < |t.children[p]| && child == t.children[p][k]
    ensures t.Has(child) && IsAncestor(t, from, child)
    ensures Rest(t, from, p, k, false) == Rest(t, from, child, 0, true)
  {
    IndexIs(t, p, k);
    ChildInside(t, from, p, child);
    var a, b, c, d := Calls(t, child), CallsFrom(t, p, k + 1), [Leave(p)], After(t, from, p);
    assert CallsFrom(t, p, k) == a + b;
    assert After(t, from, child) == b + c + d;
    assert (a + b) + c + d == a + (b + c + d);
  }

  lemma RestLeaves(t: Tree, from: nat, p: nat)
    requires t.Has(p) && IsAncestor(t, from, p)
    ensures Rest(t, from, p, |t.children[p]|, false) == [Leave(p)] + After(t, from, p)
  {
  }

  lemma RestResumes(t: Tree, from: nat, c: nat, p: nat, k: nat)
    requires t.Has(c) && IsAncestor(t, from, c) && c != from && p == t.parent[c] && k == t.IndexOf(c) + 1
    ensures t.Has(p) && IsAncestor(t, from, p) && k <= |t.children[p]|
    ensures After(t, from, c) == Rest(t, from, p, k, false)
  {
    ParentIsSmaller(t, c);
  }

  lemma RunHead<S>(c: Call, cs: seq<Call>, down: Visitor<S>, up: Visitor<S>, s: S)
    ensures RunCalls([c] + cs, down, up, s) ==
      (var r := Apply(c, down, up, s); if r.0 != 0 then r else RunCalls(cs, down, up, r.1))
  {
    assert ([c] + cs)[1..] == cs;
  }

  /**
    walk_tg_tree_from: `down:` enters a node, the list loop goes to the next child, and `up:`
    leaves a node and resumes its parent's list loop after it.
   */
  method WalkTgTreeFrom<S>(t: Tree, from: nat, down: Visitor<S>, up: Visitor<S>, s0: S) returns (ret: int, s: S)
    requires t.Has(from)
    ensures (ret, s) == RunCalls(Calls(t, from), down, up, s0)
  {
    var parent: nat := from;
    s := s0;
    var entering := true;
    var k: nat := 0;
    assert Rest(t, from, from, 0, true) == Calls(t, from);
    while true
      invariant t.Has(parent) && IsAncestor(t, from, parent) && k <= |t.children[parent]|
      invariant RunCalls(Rest(t, from, parent, k, entering), down, up, s) == RunCalls(Calls(t, from), down, up, s0)
      decreases |Rest(t, from, parent, k, entering)|, if entering then 0 else 1
    {
      if entering {
        RestEnters(t, from, parent, k);
        RunHead(Enter(parent), Rest(t, from, parent, 0, false), down, up, s);
        var r := down(parent, s);
        ret, s := r.0, r.1;
        if ret != 0 { return; }
        entering, k := false, 0;
      } else if k < |t.children[parent]| {
        RestDescends(t, from, parent, k, t.children[parent][k]);
        parent, entering, k := t.children[parent][k], true, 0;
      } else {
        RestLeaves(t, from, parent);
        RunHead(Leave(parent), After(t, from, parent), down, up, s);
        var r := up(parent, s);
        ret, s := r.0, r.1;
        if ret != 0 || parent == from { return; }
        var child := parent;
        parent, k := t.parent[child], t.IndexOf(child) + 1;
        RestResumes(t, from, child, parent, k);
      }
    }
  }

  // ---------------------------------------------------------------- what the calls are

  /** Every call before the last one made returned 0; the last one's value is the walk's. */
  lemma {:induction false} StopsAtFirstFailure<S>(
      cs: seq<Call>, down: Visitor<S>, up: Visitor<S>, s: S)
    returns (n: nat, before: S)
    ensures n <= |cs| && RunCalls(cs[..n], down, up, s) == (0, before)
    ensures if n == |cs| then RunCalls(cs, down, up, s) == (0, before)
      else Apply(cs[n], down, up, before).0 != 0 && RunCalls(cs, down, up, s) == Apply(cs[n], down, up, before)
  {
    if cs == [] { n, before := 0, s; }
    else {
      var r := Apply(cs[0], down, up, s);
      if r.0 != 0 {
        n, before := 0, s;
      } else {
        n, before := StopsAtFirstFailure(cs[1..], down, up, r.1);
        n := n + 1;
        assert cs[..n][0] == cs[0] && cs[..n][1..] == cs[1..][..n - 1];
      }
    }
  }

  /** The child of g on the path from x up to g. */
  function ChildToward(t: Tree, g: nat, x: nat): (c: nat)
    requires t.Has(g) && t.Has(x) && x != g && IsAncestor(t, g, x)
    ensures c in t.parent && t.parent[c] == g && IsAncestor(t, c, x)
    decreases x
  {
    ParentIsSmaller(t, x);
    if t.parent[x] == g then x else ChildToward(t, g, t.parent[x])
  }

  lemma {:induction false} AncestorIsNotLarger(t: Tree, a: nat, x: nat)
    requires IsAncestor(t, a, x)
    ensures a <= x
    decreases x
  {
    if a == x {
    } else {
      AncestorIsNotLarger(t, a, t.parent[x]);
    }
  }

  lemma {:induction false} SoleChildToward(t: Tree, g: nat, x: nat, c: nat)
    requires t.Has(g) && t.Has(x) && c in t.parent && t.parent[c] == g
    requires IsAncestor(t, c, x)
    ensures x != g && IsAncestor(t, g, x) && ChildToward(t, g, x) == c
    decreases x
  {
    ParentIsSmaller(t, c);
    AncestorIsNotLarger(t, c, x);
    if c == x {
    } else {
      ParentIsSmaller(t, x);
      AncestorIsNotLarger(t, c, t.parent[x]);
      SoleChildToward(t, g, t.parent[x], c);
    }
  }

  function CallOf(down: bool, x: nat): Call {
    if down then Enter(x) else Leave(x)
  }

  /** The walk calls `down` once and `up` once for every group of the subtree, and for no other. */
  lemma {:induction false} EachGroupOnce(t: Tree, g: nat, x: nat, down: bool)
    requires t.Has(g) && t.Has(x)
    ensures multiset(Calls(t, g))[CallOf(down, x)] == if IsAncestor(t, g, x) then 1 else 0
    decreases t.next - g, |t.children[g]| + 1
  {
    EachChildOnce(t, g, 0, x, down);
    var c := CallOf(down, x);
    assert multiset(Calls(t, g))[c] ==
      multiset([Enter(g)])[c] + multiset(CallsFrom(t, g, 0))[c] + multiset([Leave(g)])[c];
  }

  lemma {:induction false} EachChildOnce(t: Tree, g: nat, k: nat, x: nat, down: bool)
    requires t.Has(g) && t.Has(x) && k <= |t.children[g]|
    ensures multiset(CallsFrom(t, g, k))[CallOf(down, x)] == Below(t, g, k, x)
    decreases t.next - g, |t.children[g]| - k
  {
    if k == |t.children[g]| {
    } else {
      var child := t.children[g][k];
      IndexIs(t, g, k);
      EachGroupOnce(t, child, x, down);
      EachChildOnce(t, g, k + 1, x, down);
      BelowStep(t, g, k, x);
      var c := CallOf(down, x);
      assert multiset(CallsFrom(t, g, k))[c] == multiset(Calls(t, child))[c] + multiset(CallsFrom(t, g, k + 1))[c];
    }
  }

  /** 1 when x lies below one of g's children from the k-th on. */
  ghost function Below(t: Tree, g: nat, k: nat, x: nat): nat
    requires t.Has(g) && t.Has(x) && k <= |t.children[g]|
  {
    if x != g && IsAncestor(t, g, x) && t.IndexOf(ChildToward(t, g, x)) >= k then 1 else 0
  }

  lemma BelowStep(t: Tree, g: nat, k: nat, x: nat)
    requires t.Has(g) && t.Has(x) && k < |t.children[g]|
    ensures Below(t, g, k, x) == (if IsAncestor(t, t.children[g][k], x) then 1 else 0) + Below(t, g, k + 1, x)
  {
    IndexIs(t, g, k);
    if IsAncestor(t, t.children[g][k], x) { SoleChildToward(t, g, x, t.children[g][k]); }
  }

  lemma {:induction false} RootIsAbove(t: Tree, g: nat)
    requires t.Has(g)
    ensures IsAncestor(t, ROOT, g)
  {
    if g == ROOT {
    } else {
      ParentIsSmaller(t, g);
      RootIsAbove(t, t.parent[g]);
    }
  }

  /** The walk of the whole tree enters every group. */
  lemma EnteredAt(t: Tree, g: nat) returns (k: nat)
    requires t.Has(g)
    ensures k < |Calls(t, ROOT)| && Calls(t, ROOT)[k] == Enter(g)
  {
    RootIsAbove(t, g);
    EachGroupOnce(t, ROOT, g, true);
    assert Enter(g) in multiset(Calls(t, ROOT));
    k :| 0 <= k < |Calls(t, ROOT)| && Calls(t, ROOT)[k] == Enter(g);
  }

  /** The calls of a subtree come in one piece, in the walk of any group above it. */
  lemma {:induction false} SubtreeInOnePiece(t: Tree, g: nat, x: nat) returns (before: seq<Call>, after: seq<Call>)
    requires t.Has(g) && t.Has(x) && IsAncestor(t, g, x)
    ensures Calls(t, g) == before + Calls(t, x) + after
    ensures x != g ==> before != [] && before[0] == Enter(g) && after != [] && after[|after| - 1] == Leave(g)
    decreases x
  {
    if x == g {
      before, after := [], [];
      assert Calls(t, g) == [] + Calls(t, g) + [];
    } else {
      ParentIsSmaller(t, x);
      var p, k := t.parent[x], t.IndexOf(x);
      var left, right := ChildInOnePiece(t, p, k);
      var a, b := SubtreeInOnePiece(t, g, p);
      before, after := a + [Enter(p)] + left, right + [Leave(p)] + b;
      Regroup(a, [Enter(p)], left, Calls(t, x), right, [Leave(p)], b);
    }
  }

  lemma Regroup<T>(a: seq<T>, e: seq<T>, l: seq<T>, c: seq<T>, r: seq<T>, f: seq<T>, b: seq<T>)
    ensures a + (e + (l + c + r) + f) + b == (a + e + l) + c + (r + f + b)
  {
  }

  lemma Flatten<T>(e: seq<T>, l: seq<T>, x: seq<T>, m: seq<T>, y: seq<T>, r: seq<T>, f: seq<T>)
    ensures e + (l + x + (m + (y + r))) + f == e + l + x + m + y + r + f
  {
  }

  lemma ChildInOnePiece(t: Tree, p: nat, k: nat) returns (left: seq<Call>, right: seq<Call>)
    requires t.Has(p) && k < |t.children[p]|
    ensures t.Has(t.children[p][k]) && right == CallsFrom(t, p, k + 1)
    ensures CallsFrom(t, p, 0) == left + Calls(t, t.children[p][k]) + right
  {
    left := ChildrenBefore(t, p, k);
    right := CallsFrom(t, p, k + 1);
    var c := Calls(t, t.children[p][k]);
    assert left + (c + right) == left + c + right;
  }

  /** The children before the k-th are visited before it. */
  lemma {:induction false} ChildrenBefore(t: Tree, p: nat, k: nat) returns (left: seq<Call>)
    requires t.Has(p) && k <= |t.children[p]|
    ensures CallsFrom(t, p, 0) == left + CallsFrom(t, p, k)
  {
    if k == 0 {
      left := [];
    } else {
      var l := ChildrenBefore(t, p, k - 1);
      var c := Calls(t, t.children[p][k - 1]);
      left := l + c;
      assert CallsFrom(t, p, k - 1) == c + CallsFrom(t, p, k);
      assert l + (c + CallsFrom(t, p, k)) == l + c + CallsFrom(t, p, k);
    }
  }

  /** Siblings are visited in the order of their parent's list, each between the parent's two calls. */
  lemma SiblingsInOrder(t: Tree, p: nat, j: nat, k: nat) returns (a: seq<Call>, b: seq<Call>, c: seq<Call>)
    requires t.Has(p) && j < k < |t.children[p]|
    ensures t.Has(t.children[p][j]) && t.Has(t.children[p][k])
    ensures Calls(t, p) ==
      [Enter(p)] + a + Calls(t, t.children[p][j]) + b + Calls(t, t.children[p][k]) + c + [Leave(p)]
  {
    var left, right := ChildInOnePiece(t, p, j);
    var mid := ChildrenBetween(t, p, j + 1, k);
    var x, y := Calls(t, t.children[p][j]), Calls(t, t.children[p][k]);
    a, b, c := left, mid, CallsFrom(t, p, k + 1);
    Flatten([Enter(p)], left, x, mid, y, c, [Leave(p)]);
  }

  lemma {:induction false} ChildrenBetween(t: Tree, p: nat, j: nat, k: nat) returns (mid: seq<Call>)
    requires t.Has(p) && j <= k <= |t.children[p]|
    ensures CallsFrom(t, p, j) == mid + CallsFrom(t, p, k)
    decreases k - j
  {
    if j == k {
      mid := [];
    } else {
      var m := ChildrenBetween(t, p, j + 1, k);
      mid := Calls(t, t.children[p][j]) + m;
      assert Calls(t, t.children[p][j]) + (m + CallsFrom(t, p, k)) == mid + CallsFrom(t, p, k);
    }
  }

  /** A walk whose visitors only judge succeeds exactly when every call does. */
  lemma {:induction false} StatelessRun(cs: seq<Call>, down: Visitor<()>, up: Visitor<()>)
    ensures RunCalls(cs, down, up, ()).0 == 0 <==> forall k :: 0 <= k < |cs| ==> Apply(cs[k], down, up, ()).0 == 0
  {
    if cs == [] {
    } else {
      StatelessRun(cs[1..], down, up);
      assert Apply(cs[0], down, up, ()).1 == ();
      if forall k :: 0 <= k < |cs| - 1 ==> Apply(cs[1..][k], down, up, ()).0 == 0 {
        assert forall k :: 0 < k < |cs| ==> cs[k] == cs[1..][k - 1];
      }
      assert forall k :: 0 <= k < |cs| - 1 ==> cs[1..][k] == cs[k + 1];
    }
  }

  // ---------------------------------------------------------------- growing and shrinking the tree

  function Grown(t: Tree, p: nat): Groups
    requires t.Has(p)
  {
    Groups(t.next + 1, t.parent[t.next := p], t.children[p := [t.next] + t.children[p]][t.next := []])
  }

  lemma GrownChildren(t: Tree, p: nat, g: nat)
    requires t.Has(p) && g in Grown(t, p).children
    ensures g == t.next ==> Grown(t, p).children[g] == []
    ensures g != t.next ==>
      t.Has(g) && Grown(t, p).children[g] == if g == p then [t.next] + t.children[p] else t.children[g]
  {
  }

  lemma GrownIsValid(t: Tree, p: nat)
    requires t.Has(p)
    ensures Grown(t, p).Valid()
  {
    var t' := Grown(t, p);
    forall g, k | g in t'.children && 0 <= k < |t'.children[g]|
      ensures t'.children[g][k] in t'.parent && t'.parent[t'.children[g][k]] == g && g < t'.children[g][k]
    {
      GrownChildren(t, p, g);
      if g != p || k > 0 { assert t'.children[g][k] == t.children[g][if g == p then k - 1 else k]; }
    }
    forall g, j, k | g in t'.children && 0 <= j < k < |t'.children[g]| ensures t'.children[g][j] != t'.children[g][k] {
      GrownChildren(t, p, g);
      assert t'.children[g][k] == t.children[g][if g == p then k - 1 else k];
      if g != p || j > 0 { assert t'.children[g][j] == t.children[g][if g == p then j - 1 else j]; }
    }
    forall g | g in t'.parent ensures t'.parent[g] in t'.children && g in t'.children[t'.parent[g]] {
      GrownChildren(t, p, t'.parent[g]);
    }
  }

  /** sched_online_group: the new group goes to the head of its parent's list. */
  function Online(t: Tree, p: nat): (t': Tree)
    requires t.Has(p)
    ensures t'.children.Keys == t.children.Keys + {t.next} && t.next in t'.parent && t'.parent[t.next] == p
  {
    GrownIsValid(t, p);
    Grown(t, p)
  }

  lemma OnlineLists(t: Tree, p: nat, g: nat)
    requires t.Has(p) && Online(t, p).Has(g)
    ensures Online(t, p).children[g] ==
      if g == t.next then [] else if g == p then [t.next] + t.children[p] else t.children[g]
  {
  }

  function Without(s: seq<nat>, x: nat): seq<nat> {
    if s == [] then [] else if s[0] == x then s[1..] else [s[0]] + Without(s[1..], x)
  }

  lemma {:induction false} WithoutIs(s: seq<nat>, x: nat)
    requires Distinct(s)
    ensures forall y :: y in Without(s, x) <==> y in s && y != x
    ensures Distinct(Without(s, x))
  {
    if s == [] {
    } else {
      assert s == [s[0]] + s[1..];
      WithoutIs(s[1..], x);
      if s[0] != x {
        var w := Without(s[1..], x);
        assert forall k :: 0 <= k < |w| ==> w[k] in s[1..];
      }
    }
  }

  /** list_del: the others keep their order. */
  lemma {:induction false} WithoutAt(s: seq<nat>, k: nat)
    requires Distinct(s) && k < |s|
    ensures Without(s, s[k]) == s[..k] + s[k + 1..]
  {
    if k == 0 {
    } else {
      WithoutAt(s[1..], k - 1);
      assert s[1..][k - 1] == s[k] && s[..k] == [s[0]] + s[1..][..k - 1] && s[1..][k..] == s[k + 1..];
    }
  }

  function Removed(t: Tree, g: nat): Groups
    requires g in t.parent && t.children[g] == []
  {
    var p := t.parent[g];
    Groups(t.next, t.parent - {g}, t.children[p := Without(t.children[p], g)] - {g})
  }

  lemma RemovedChildren(t: Tree, g: nat, x: nat)
    requires g in t.parent && t.children[g] == [] && t.Has(x) && x != g
    ensures x in Removed(t, g).children && Distinct(Removed(t, g).children[x])
    ensures forall y :: y in Removed(t, g).children[x] <==> y in t.children[x] && y != g
  {
    ParentIsSmaller(t, g);
    assert Distinct(t.children[x]);
    WithoutIs(t.children[x], g);
  }

  /** sched_offline_group, which the cgroup core only calls for a group without children. */
  function Offline(t: Tree, g: nat): (t': Tree)
    requires g in t.parent && t.children[g] == []
    ensures t'.children.Keys == t.children.Keys - {g} && t'.parent == t.parent - {g}
  {
    RemovedIsValid(t, g);
    Removed(t, g)
  }

  lemma RemovedIsValid(t: Tree, g: nat)
    requires g in t.parent && t.children[g] == []
    ensures Removed(t, g).Valid() && Removed(t, g).children.Keys == t.children.Keys - {g}
  {
    var t' := Removed(t, g);
    ParentIsSmaller(t, g);
    forall x, k | x in t'.children && 0 <= k < |t'.children[x]|
      ensures t'.children[x][k] in t'.parent && t'.parent[t'.children[x][k]] == x && x < t'.children[x][k]
    {
      RemovedChildren(t, g, x);
      var y := t'.children[x][k];
      assert y in t.children[x];
      var j :| 0 <= j < |t.children[x]| && t.children[x][j] == y;
    }
    forall x, j, k | x in t'.children && 0 <= j < k < |t'.children[x]| ensures t'.children[x][j] != t'.children[x][k] {
      RemovedChildren(t, g, x);
    }
    forall x | x in t'.parent ensures t'.parent[x] in t'.children && x in t'.children[t'.parent[x]] {
      assert t.parent[x] != g;
      RemovedChildren(t, g, t.parent[x]);
    }
  }
}
