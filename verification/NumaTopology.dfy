/** NUMA distance levels and their CPU masks (assg4/core.c, CONFIG_NUMA). */
module NumaTopology {
  import opened Basics

  /** node_distance() of every pair of nodes. */
  type Table = d: seq<seq<int>> | |d| > 0 && forall i :: 0 <= i < |d| ==> |d[i]| == |d|
    witness [[10]]

  // ---------------------------------------------------------------- the distinct distances

  ghost function Larger(row: seq<int>, curr: int): set<nat> {
    set k: nat | k < |row| && row[k] > curr
  }

  /** The smallest entry of the row above curr, or curr when there is none. */
  function NextAbove(row: seq<int>, curr: int): int {
    if row == [] then curr else Nearer(NextAbove(row[..|row| - 1], curr), row[|row| - 1], curr)
  }

  /** One comparison of the selection loop. */
  function Nearer(next: int, distance: int, curr: int): int {
    if distance > curr && (distance < next || next == curr) then distance else next
  }

  lemma {:induction false} NextAboveIs(row: seq<int>, curr: int)
    ensures var m := NextAbove(row, curr);
      && (m == curr || (m > curr && m in row))
      && (forall x :: x in row && x > curr ==> curr < m <= x)
  {
    if row == [] {
    } else {
      var init := row[..|row| - 1];
      NextAboveIs(init, curr);
      assert row == init + [row[|row| - 1]];
    }
  }

  lemma LargerShrinks(row: seq<int>, curr: int)
    requires NextAbove(row, curr) != curr
    ensures Larger(row, NextAbove(row, curr)) < Larger(row, curr)
  {
    NextAboveIs(row, curr);
    var m := NextAbove(row, curr);
    var k :| 0 <= k < |row| && row[k] == m;
    assert k in Larger(row, curr) && k !in Larger(row, m);
  }

  /** The distinct entries of the row above curr, in increasing order. */
  function Ascend(row: seq<int>, curr: int): seq<int>
    decreases Larger(row, curr)
  {
    var m := NextAbove(row, curr);
    if m == curr then []
    else
      LargerShrinks(row, curr);
      [m] + Ascend(row, m)
  }

  lemma Prepend(m: int, rest: seq<int>)
    requires Increasing(rest) && forall x :: x in rest ==> m < x
    ensures Increasing([m] + rest)
    ensures forall x :: x in [m] + rest <==> x == m || x in rest
  {
    forall k | 0 <= k < |rest| ensures m < rest[k] { assert rest[k] in rest; }
    assert ([m] + rest)[0] == m && ([m] + rest)[1..] == rest;
  }

  lemma {:induction false} AscendIs(row: seq<int>, curr: int)
    ensures Increasing(Ascend(row, curr))
    ensures forall x :: x in Ascend(row, curr) <==> x in row && x > curr
    decreases Larger(row, curr)
  {
    var m := NextAbove(row, curr);
    NextAboveIs(row, curr);
    if m == curr {
    } else {
      LargerShrinks(row, curr);
      AscendIs(row, m);
      Prepend(m, Ascend(row, m));
    }
  }

  lemma {:induction false} AscendLength(row: seq<int>, curr: int)
    ensures |Ascend(row, curr)| <= |Larger(row, curr)|
    decreases Larger(row, curr)
  {
    var m := NextAbove(row, curr);
    if m == curr {
    } else {
      LargerShrinks(row, curr);
      AscendLength(row, m);
      ProperSubset(Larger(row, m), Larger(row, curr));
    }
  }

  lemma ProperSubset<T>(a: set<T>, b: set<T>)
    requires a < b
    ensures |a| < |b|
  {
    var x :| x in b && x !in a;
    assert b == a + (b - a) && b - a == {x} + (b - a - {x});
  }

  ghost function Indices(n: nat): (s: set<nat>)
    ensures forall k: nat :: k in s <==> k < n
    ensures |s| == n
  {
    if n == 0 then {} else Indices(n - 1) + {n - 1}
  }

  lemma LargerAtMost(row: seq<int>, curr: int)
    ensures |Larger(row, curr)| <= |row|
    ensures curr in row ==> |Larger(row, curr)| < |row|
  {
    var all := Indices(|row|);
    assert all == Larger(row, curr) + (all - Larger(row, curr));
    if curr in row {
      var k :| 0 <= k < |row| && row[k] == curr;
      assert k in all - Larger(row, curr);
    }
  }

  /** Distances found in the rows before the i-th, each row continuing above what the earlier ones gave. */
  function FoundIn(d: Table, i: nat): seq<int>
    requires i <= |d|
    decreases i, 0
  {
    if i == 0 then [] else FoundIn(d, i - 1) + Ascend(d[i - 1], Top(d, i - 1))
  }

  /** curr_distance when the i-th row is begun. */
  function Top(d: Table, i: nat): int
    requires i <= |d|
    decreases i, 1
  {
    if FoundIn(d, i) == [] then d[0][0] else FoundIn(d, i)[|FoundIn(d, i)| - 1]
  }

  /** Without sched_debug() only the first row is looked at. */
  function Found(d: Table, debug: bool): seq<int> {
    FoundIn(d, if debug then |d| else 1)
  }

  /** The assumption the source states: node 0 sees every distance there is. */
  predicate Representative(d: Table) {
    forall i, k :: 0 <= i < |d| && 0 <= k < |d| ==> d[i][k] in d[0]
  }

  lemma FirstRow(d: Table)
    ensures FoundIn(d, 1) == Ascend(d[0], d[0][0])
  {
    assert FoundIn(d, 0) == [] && Top(d, 0) == d[0][0];
    assert FoundIn(d, 1) == [] + Ascend(d[0], d[0][0]);
  }

  /** The levels are the distances from node 0 above its local one, increasing, and fewer than the nodes. */
  lemma FoundIs(d: Table)
    ensures Increasing(Found(d, false)) && |Found(d, false)| <= |d| - 1
    ensures forall x :: x in Found(d, false) <==> x in d[0] && x > d[0][0]
  {
    FirstRow(d);
    AscendIs(d[0], d[0][0]);
    AscendLength(d[0], d[0][0]);
    LargerAtMost(d[0], d[0][0]);
  }

  lemma TopIsLargest(d: Table)
    ensures forall x :: x in d[0] ==> x <= Top(d, 1)
  {
    FoundIs(d);
    var f := Found(d, false);
    assert f != [] ==> f[|f| - 1] in f;
    forall x | x in d[0] ensures x <= Top(d, 1) {
      if x > d[0][0] {
        var k :| 0 <= k < |f| && f[k] == x;
        assert k < |f| - 1 ==> f[k] < f[|f| - 1];
      }
    }
  }

  predicate AllBelow(row: seq<int>, x: int) {
    forall k :: 0 <= k < |row| ==> row[k] < x
  }

  /** x is above the local distance and above every entry of the first i rows. */
  predicate AboveRows(d: Table, i: nat, x: int)
    requires i <= |d|
  {
    x > d[0][0] && forall r :: 0 <= r < i ==> AllBelow(d[r], x)
  }

  /** x is above the local distance, and the first row with an entry that is not below x contains x itself. */
  predicate IsRecord(d: Table, r: nat, x: int)
    requires r < |d|
  {
    x in d[r] && AboveRows(d, r, x)
  }

  lemma LastIsLargest(s: seq<int>, x: int)
    requires Increasing(s) && s != [] && x in s
    ensures x <= s[|s| - 1]
  {
    var k :| 0 <= k < |s| && s[k] == x;
  }

  lemma AppendIncreasing(s: seq<int>, t: seq<int>, top: int)
    requires Increasing(s) && Increasing(t)
    requires (forall x :: x in s ==> x <= top) && (forall x :: x in t ==> x > top)
    ensures Increasing(s + t)
  {
    var all := s + t;
    forall j, k | 0 <= j < k < |all| ensures all[j] < all[k] {
      if j < |s| <= k { assert s[j] in s && t[k - |s|] in t; }
    }
  }

  lemma TopAfterRow(d: Table, i: nat, x: int)
    requires i < |d|
    ensures x > Top(d, i + 1) <==> x > Top(d, i) && AllBelow(d[i], x)
  {
    var row := Ascend(d[i], Top(d, i));
    AscendIs(d[i], Top(d, i));
    assert FoundIn(d, i + 1) == FoundIn(d, i) + row;
    if row != [] { assert row[|row| - 1] in row; }
    forall k | 0 <= k < |d[i]| ensures d[i][k] <= Top(d, i + 1) {
      assert d[i][k] in d[i];
      if d[i][k] > Top(d, i) { LastIsLargest(row, d[i][k]); }
    }
  }

  lemma AboveOneMore(d: Table, i: nat, x: int)
    requires i < |d|
    ensures AboveRows(d, i + 1, x) <==> AboveRows(d, i, x) && AllBelow(d[i], x)
  {
  }

  /** What the current distance means after i rows. */
  lemma {:induction false} TopIs(d: Table, i: nat, x: int)
    requires i <= |d|
    ensures x > Top(d, i) <==> AboveRows(d, i, x)
  {
    if i == 0 {
      assert FoundIn(d, 0) == [];
    } else {
      TopIs(d, i - 1, x);
      TopAfterRow(d, i - 1, x);
      AboveOneMore(d, i - 1, x);
    }
  }

  lemma {:induction false} FoundIncreases(d: Table, i: nat)
    requires i <= |d|
    ensures Increasing(FoundIn(d, i)) && forall x :: x in FoundIn(d, i) ==> x <= Top(d, i)
  {
    if i == 0 {
      assert FoundIn(d, 0) == [];
    } else {
      FoundIncreases(d, i - 1);
      AscendIs(d[i - 1], Top(d, i - 1));
      AppendIncreasing(FoundIn(d, i - 1), Ascend(d[i - 1], Top(d, i - 1)), Top(d, i - 1));
      forall x | x in FoundIn(d, i) ensures x <= Top(d, i) { LastIsLargest(FoundIn(d, i), x); }
    }
  }

  /** What has been found after i rows: the records of those rows. */
  lemma {:induction false} FoundInIs(d: Table, i: nat, x: int)
    requires i <= |d|
    ensures x in FoundIn(d, i) <==> exists r :: 0 <= r < i && IsRecord(d, r, x)
  {
    if i == 0 {
      assert FoundIn(d, 0) == [];
    } else {
      FoundInIs(d, i - 1, x);
      TopIs(d, i - 1, x);
      AscendIs(d[i - 1], Top(d, i - 1));
      assert IsRecord(d, i - 1, x) <==> x in Ascend(d[i - 1], Top(d, i - 1));
    }
  }

  /** No row has an entry above the largest of row 0. */
  predicate NothingAboveRow0(d: Table) {
    forall i, k :: 0 <= i < |d| && 0 <= k < |d| ==> d[i][k] <= Top(d, 1)
  }

  lemma {:induction false} LaterRowsAddNothing(d: Table, i: nat)
    requires NothingAboveRow0(d) && 1 <= i <= |d|
    ensures FoundIn(d, i) == FoundIn(d, 1)
  {
    if i == 1 {
    } else {
      LaterRowsAddNothing(d, i - 1);
      NextAboveIs(d[i - 1], Top(d, 1));
      assert Ascend(d[i - 1], Top(d, i - 1)) == [];
    }
  }

  /** Checking the other rows changes nothing exactly when none has an entry above the largest of row 0. */
  lemma DebugAgreesIff(d: Table)
    ensures Found(d, true) == Found(d, false) <==> NothingAboveRow0(d)
    ensures Top(d, 1) in d[0] && forall x :: x in d[0] ==> x <= Top(d, 1)
  {
    TopIsLargest(d);
    FoundIs(d);
    if Found(d, false) == [] { assert d[0][0] in d[0]; }
    else { assert Top(d, 1) in Found(d, false); }
    if NothingAboveRow0(d) { LaterRowsAddNothing(d, |d|); }
    if Found(d, true) == Found(d, false) {
      forall i, k | 0 <= i < |d| && 0 <= k < |d| ensures d[i][k] <= Top(d, 1) {
        TopIs(d, |d|, d[i][k]);
        assert !AllBelow(d[i], d[i][k]);
      }
    }
  }

  /** When node 0 is representative, checking the other rows changes nothing. */
  lemma DebugAgrees(d: Table)
    requires Representative(d)
    ensures Found(d, true) == Found(d, false)
  {
    TopIsLargest(d);
    LaterRowsAddNothing(d, |d|);
  }

  /** The distinct distances that a debug run records, by what they are in the table. */
  ghost function Records(d: Table): set<int> {
    set r: nat, k: nat | r < |d| && k < |d| && IsRecord(d, r, d[r][k]) :: d[r][k]
  }

  lemma {:induction false} IncreasingSize(s: seq<int>)
    requires Increasing(s)
    ensures |set x | x in s| == |s|
  {
    if s == [] {
    } else {
      var init, last := s[..|s| - 1], s[|s| - 1];
      IncreasingSize(init);
      assert s == init + [last];
      assert (set x | x in s) == (set x | x in init) + {last};
    }
  }

  /** A debug run stores one distance per record, so the array is overrun exactly when these outnumber the nodes. */
  lemma DebugOverrunIff(d: Table)
    ensures |Found(d, true)| == |Records(d)|
    ensures |Found(d, true)| > |d| <==> |Records(d)| > |d|
  {
    FoundIncreases(d, |d|);
    IncreasingSize(Found(d, true));
    forall x ensures x in Records(d) <==> x in Found(d, true) {
      FoundInIs(d, |d|, x);
      if x in Found(d, true) {
        var r :| 0 <= r < |d| && IsRecord(d, r, x);
        var k :| 0 <= k < |d[r]| && d[r][k] == x;
      }
    }
    assert Records(d) == set x | x in Found(d, true);
  }

  const THREE_NODES: Table := [[10, 20, 30], [40, 10, 50], [60, 70, 10]]

  lemma ThreeNodesRecords()
    ensures 20 in Records(THREE_NODES) && 40 in Records(THREE_NODES)
    ensures 60 in Records(THREE_NODES) && 70 in Records(THREE_NODES)
  {
    RecordAt(THREE_NODES, 0, 1);
    RecordAt(THREE_NODES, 1, 0);
    RecordAt(THREE_NODES, 2, 0);
    RecordAt(THREE_NODES, 2, 1);
  }

  /** A table with equal local distances on which a debug run records more distances than there are nodes. */
  lemma DebugOverrun()
    ensures |Found(THREE_NODES, true)| > |THREE_NODES|
    ensures forall i :: 0 <= i < |THREE_NODES| ==> THREE_NODES[i][i] == THREE_NODES[0][0]
  {
    DebugOverrunIff(THREE_NODES);
    ThreeNodesRecords();
    SubsetSize({20, 40, 60, 70}, Records(THREE_NODES));
  }

  lemma RecordAt(d: Table, r: nat, k: nat)
    requires r < |d| && k < |d| && IsRecord(d, r, d[r][k])
    ensures d[r][k] in Records(d)
  {
  }

  lemma AscendStep(row: seq<int>, curr: int, goal: seq<int>, level: nat)
    requires level <= |goal| && Ascend(row, curr) == goal[level..] && NextAbove(row, curr) != curr
    ensures level < |goal| && goal[level] == NextAbove(row, curr)
    ensures Ascend(row, NextAbove(row, curr)) == goal[level + 1..]
  {
    assert Ascend(row, curr)[1..] == Ascend(row, NextAbove(row, curr));
  }

  // ---------------------------------------------------------------- the masks

  /** The online CPUs whose node is within `limit` of node j. */
  function Within(d: Table, nodeOf: map<nat, nat>, online: set<nat>, limit: int, j: nat): set<nat>
    requires j < |d|
  {
    set c | c in online && c in nodeOf && nodeOf[c] < |d| && d[j][nodeOf[c]] <= limit
  }

  datatype Event = CpuOnline(cpu: nat) | CpuDead(cpu: nat)

  function OnlineAfter(online: set<nat>, e: Event): set<nat> {
    match e
    case CpuOnline(c) => online + {c}
    case CpuDead(c) => online - {c}
  }

  /** What the notifier does to the mask of node j at distance `limit`. */
  function MaskAfter(d: Table, nodeOf: map<nat, nat>, mask: set<nat>, limit: int, j: nat, e: Event): set<nat>
    requires j < |d|
  {
    match e
    case CpuOnline(c) =>
      if c in nodeOf && nodeOf[c] < |d| && d[j][nodeOf[c]] <= limit then mask + {c} else mask
    case CpuDead(c) => mask - {c}
  }

  lemma EventKeepsCache(d: Table, nodeOf: map<nat, nat>, online: set<nat>, limit: int, j: nat, e: Event)
    requires j < |d|
    ensures MaskAfter(d, nodeOf, Within(d, nodeOf, online, limit, j), limit, j, e)
      == Within(d, nodeOf, OnlineAfter(online, e), limit, j)
  {
  }

  function OnlineAfterAll(online: set<nat>, es: seq<Event>): set<nat> {
    if es == [] then online else OnlineAfter(OnlineAfterAll(online, es[..|es| - 1]), es[|es| - 1])
  }

  function MaskAfterAll(d: Table, nodeOf: map<nat, nat>, mask: set<nat>, limit: int, j: nat, es: seq<Event>): set<nat>
    requires j < |d|
  {
    if es == [] then mask
    else MaskAfter(d, nodeOf, MaskAfterAll(d, nodeOf, mask, limit, j, es[..|es| - 1]), limit, j, es[|es| - 1])
  }

  /** After any sequence of hotplug events the cached mask is the one computed from scratch. */
  lemma {:induction false} CacheIsRecomputation(
      d: Table, nodeOf: map<nat, nat>, online: set<nat>, limit: int, j: nat, es: seq<Event>)
    requires j < |d|
    ensures MaskAfterAll(d, nodeOf, Within(d, nodeOf, online, limit, j), limit, j, es)
      == Within(d, nodeOf, OnlineAfterAll(online, es), limit, j)
  {
    if es == [] {
    } else {
      CacheIsRecomputation(d, nodeOf, online, limit, j, es[..|es| - 1]);
      EventKeepsCache(d, nodeOf, OnlineAfterAll(online, es[..|es| - 1]), limit, j, es[|es| - 1]);
    }
  }

  /** With representative distances the widest level spans every online CPU. */
  lemma TopLevelSpansAll(d: Table, nodeOf: map<nat, nat>, online: set<nat>, j: nat)
    requires Representative(d) && j < |d| && online <= nodeOf.Keys && forall c :: c in nodeOf ==> nodeOf[c] < |d|
    requires Found(d, false) != []
    ensures Within(d, nodeOf, online, Found(d, false)[|Found(d, false)| - 1], j) == online
  {
    TopIsLargest(d);
  }

  // ---------------------------------------------------------------- the tables, filled in place

  datatype Level = Default(id: nat) | Numa(level: nat)

  function NumaLevels(n: nat): seq<Level> {
    if n == 0 then [] else NumaLevels(n - 1) + [Numa(n - 1)]
  }

  /** The entries appended to the table are the levels in order, one each. */
  lemma {:induction false} NumaLevelsAre(n: nat)
    ensures |NumaLevels(n)| == n && forall j :: 0 <= j < n ==> NumaLevels(n)[j] == Numa(j)
  {
    if n == 0 {
    } else {
      NumaLevelsAre(n - 1);
    }
  }

  /** A CPU is in the mask of node j at a level exactly if it is online and j is that close to its node. */
  lemma MaskHolds(d: Table, nodeOf: map<nat, nat>, online: set<nat>, i: nat, j: nat, c: nat)
    requires i < |Found(d, false)| && j < |d| && c in nodeOf && nodeOf[c] < |d|
    ensures c in Within(d, nodeOf, online, Found(d, false)[i], j) <==>
      c in online && d[j][nodeOf[c]] <= Found(d, false)[i]
  {
  }

  /** An event concerns its own CPU only. */
  lemma OnlineAfterIs(online: set<nat>, e: Event, c: nat)
    ensures c in OnlineAfter(online, e) <==> if c == e.cpu then e.CpuOnline? else c in online
  {
  }

  class Topology {
    const d: Table
    const nodeOf: map<nat, nat>
    var online: set<nat>
    var distance: array<int>
    var levels: nat
    var masks: array2<set<nat>>
    var table: seq<Level>

    predicate Nodes()
      reads this
    {
      online <= nodeOf.Keys && forall c :: c in nodeOf ==> nodeOf[c] < |d|
    }

    predicate Shaped()
      reads this
    {
      Nodes() && levels <= distance.Length && levels == masks.Length0 && masks.Length1 == |d|
    }

    /** Every mask is the one computed from scratch for the CPUs online now. */
    ghost predicate Valid()
      reads this, distance, masks
    {
      && Shaped()
      && (forall i, j :: 0 <= i < levels && 0 <= j < |d| ==> masks[i, j] == Within(d, nodeOf, online, distance[i], j))
    }

    constructor (d: Table, nodeOf: map<nat, nat>, online: set<nat>, table: seq<Level>)
      requires online <= nodeOf.Keys && forall c :: c in nodeOf ==> nodeOf[c] < |d|
      ensures Valid() && levels == 0 && this.d == d && this.nodeOf == nodeOf
      ensures this.online == online && this.table == table
      ensures fresh(distance) && fresh(masks)
    {
      this.d, this.nodeOf, this.online, this.table := d, nodeOf, online, table;
      distance, levels := new int[0], 0;
      masks := new set<nat>[0, |d|];
    }

    /** The innermost loop of the selection. */
    method SelectNext(row: seq<int>, curr: int) returns (next: int)
      ensures next == NextAbove(row, curr)
    {
      next := curr;
      for k := 0 to |row|
        invariant next == NextAbove(row[..k], curr)
      {
        assert row[..k + 1][..k] == row[..k];
        if row[k] > curr && (row[k] < next || next == curr) { next := row[k]; }
      }
      assert row[..|row|] == row;
    }

    /** The selection loop over one row: appends the distances above curr to the array. */
    method SelectRow(row: seq<int>, curr0: int, start: nat, a: array<int>)
      returns (overrun: bool, level: nat, curr: int)
      requires start <= a.Length
      modifies a
      ensures overrun <==> start + |Ascend(row, curr0)| > a.Length
      ensures !overrun ==> level == start + |Ascend(row, curr0)|
      ensures !overrun ==> a[..level] == old(a[..start]) + Ascend(row, curr0)
      ensures !overrun ==> curr == if level == start then curr0 else a[level - 1]
    {
      overrun, level, curr := false, start, curr0;
      var j := 0;
      ghost var goal := a[..start] + Ascend(row, curr0);
      AscendLength(row, curr0);
      LargerAtMost(row, curr0);
      while j < |row|
        invariant start <= level <= |goal| && level <= a.Length
        invariant a[..level] == goal[..level] && Ascend(row, curr) == goal[level..]
        invariant curr == if level == start then curr0 else a[level - 1]
        invariant j <= |row| && |goal| - level <= |row| - j
      {
        var next := SelectNext(row, curr);
        if next == curr { break; }
        AscendStep(row, curr, goal, level);
        if level == a.Length {
          overrun := true;
          return;
        }
        a[level] := next;
        level, curr, j := level + 1, next, j + 1;
      }
    }

    /** The first half of sched_init_numa; a store past the end of the array ends it. */
    method FindDistances(debug: bool) returns (overrun: bool, a: array<int>, level: nat)
      ensures fresh(a) && a.Length == |d| && (overrun <==> |Found(d, debug)| > |d|)
      ensures !overrun ==> level == |Found(d, debug)| && a[..level] == Found(d, debug)
    {
      a := new int[|d|](_ => 0);
      overrun, level := false, 0;
      var curr, i := d[0][0], 0;
      while i < |d|
        invariant i <= |d| && level <= a.Length && (i > 0 ==> debug)
        invariant a[..level] == FoundIn(d, i) && level == |FoundIn(d, i)|
        invariant curr == Top(d, i)
      {
        RowStep(d, i, debug);
        overrun, level, curr := SelectRow(d[i], curr, level, a);
        if overrun { return; }
        i := i + 1;
        if !debug { break; }
      }
    }

    /** The masks of one level, from scratch. */
    method FillLevel(m: array2<set<nat>>, i: nat, limit: int)
      requires Nodes() && i < m.Length0 && m.Length1 == |d|
      modifies m
      ensures forall j :: 0 <= j < |d| ==> m[i, j] == Within(d, nodeOf, online, limit, j)
      ensures forall x, j :: 0 <= x < m.Length0 && 0 <= j < |d| && x != i ==> m[x, j] == old(m[x, j])
    {
      for j := 0 to |d|
        invariant forall y :: 0 <= y < j ==> m[i, y] == Within(d, nodeOf, online, limit, y)
        invariant forall x, y :: 0 <= x < m.Length0 && 0 <= y < |d| && x != i ==> m[x, y] == old(m[x, y])
      {
        var mask: set<nat> := {};
        for k := 0 to |d|
          invariant mask == set c | c in online && nodeOf[c] < k && d[j][nodeOf[c]] <= limit
        {
          if d[j][k] <= limit {
            mask := mask + CpumaskOfNode(k);
          }
        }
        m[i, j] := mask;
      }
    }

    /** cpumask_of_node: the online CPUs of a node. */
    function CpumaskOfNode(k: nat): set<nat>
      requires Nodes()
      reads this
    {
      set c | c in online && nodeOf[c] == k
    }

    /** sched_init_numa */
    method SchedInitNuma(debug: bool) returns (overrun: bool)
      requires Valid() && levels == 0
      modifies this`distance, this`levels, this`masks, this`table
      ensures Valid() && (overrun <==> |Found(d, debug)| > |d|) && distance.Length == |d|
      ensures levels == if overrun then 0 else |Found(d, debug)|
      ensures !overrun ==> distance[..levels] == Found(d, debug)
      ensures table == old(table) + NumaLevels(levels)
    {
      var level;
      overrun, distance, level := FindDistances(debug);
      if overrun || level == 0 {
        assert table + NumaLevels(0) == table;
        return;
      }
      var m := new set<nat>[level, |d|];
      for i := 0 to level
        invariant Nodes() && distance.Length == |d| && distance[..level] == Found(d, debug) && table == old(table)
        invariant forall x, y :: 0 <= x < i && 0 <= y < |d| ==> m[x, y] == Within(d, nodeOf, online, distance[x], y)
      {
        FillLevel(m, i, distance[i]);
      }
      masks := m;
      var tl := table;
      for j := 0 to level
        invariant tl == table + NumaLevels(j)
      {
        assert table + NumaLevels(j + 1) == table + NumaLevels(j) + [Numa(j)];
        tl := tl + [Numa(j)];
      }
      table := tl;
      levels := level;
    }

    /** sched_domains_numa_masks_update: the CPU map has changed already, the masks follow. */
    method Update(e: Event)
      requires Valid() && (e.CpuOnline? ==> e.cpu in nodeOf)
      modifies this`online, masks
      ensures Valid() && online == OnlineAfter(old(online), e)
    {
      ghost var before := online;
      online := OnlineAfter(online, e);
      for i := 0 to levels
        invariant Shaped() && online == OnlineAfter(before, e)
        invariant forall x, y :: 0 <= x < i && 0 <= y < |d| ==> masks[x, y] == Within(d, nodeOf, online, distance[x], y)
        invariant forall x, y :: i <= x < levels && 0 <= y < |d| ==>
          masks[x, y] == Within(d, nodeOf, before, distance[x], y)
      {
        UpdateLevel(i, e, before);
      }
    }

    method UpdateLevel(i: nat, e: Event, ghost before: set<nat>)
      requires Shaped() && i < levels && (e.CpuOnline? ==> e.cpu in nodeOf) && online == OnlineAfter(before, e)
      requires forall y :: 0 <= y < |d| ==> masks[i, y] == Within(d, nodeOf, before, distance[i], y)
      modifies masks
      ensures forall y :: 0 <= y < |d| ==> masks[i, y] == Within(d, nodeOf, online, distance[i], y)
      ensures forall x, y :: 0 <= x < levels && 0 <= y < |d| && x != i ==> masks[x, y] == old(masks[x, y])
    {
      for j := 0 to |d|
        invariant forall y :: 0 <= y < j ==> masks[i, y] == Within(d, nodeOf, online, distance[i], y)
        invariant forall y :: j <= y < |d| ==> masks[i, y] == Within(d, nodeOf, before, distance[i], y)
        invariant forall x, y :: 0 <= x < levels && 0 <= y < |d| && x != i ==> masks[x, y] == old(masks[x, y])
      {
        EventKeepsCache(d, nodeOf, before, distance[i], j, e);
        match e
        case CpuOnline(c) =>
          if d[j][nodeOf[c]] <= distance[i] { masks[i, j] := masks[i, j] + {c}; }
        case CpuDead(c) =>
          masks[i, j] := masks[i, j] - {c};
      }
    }
  }

  lemma RowStep(d: Table, i: nat, debug: bool)
    requires i < if debug then |d| else 1
    ensures var row := Ascend(d[i], Top(d, i));
      && FoundIn(d, i + 1) == FoundIn(d, i) + row
      && Top(d, i + 1) == (if row == [] then Top(d, i) else row[|row| - 1])
      && |FoundIn(d, i)| + |row| <= |Found(d, debug)|
  {
    PrefixFound(d, i + 1, if debug then |d| else 1);
  }

  lemma {:induction false} PrefixFound(d: Table, i: nat, n: nat)
    requires i <= n <= |d|
    ensures |FoundIn(d, i)| <= |FoundIn(d, n)|
  {
    if i == n {
    } else {
      PrefixFound(d, i, n - 1);
    }
  }

  /** At every node a wider level contains the narrower ones. */
  lemma MasksAreNested(d: Table, nodeOf: map<nat, nat>, online: set<nat>, i: nat, k: nat, j: nat)
    requires i < k < |Found(d, false)| && j < |d|
    ensures Within(d, nodeOf, online, Found(d, false)[i], j) <= Within(d, nodeOf, online, Found(d, false)[k], j)
  {
    FoundIs(d);
  }
}
