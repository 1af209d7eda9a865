/** Levels, dominators, edge dominators and backward closure of an acyclic block graph. */
module Levels {
  import opened Collections
  import opened Machine
  import opened Paths

  /** Block `a` branches to block `b`. */
  function BlockRel(g: Graph): Rel {
    (a: nat, b: nat) => a < |g| && b < |g| && g[a].s.Jmp? && (g[a].jt == b || g[a].jf == b)
  }

  function Only(root: nat): Entry {
    (b: nat) => b == root
  }

  /** Edge `e` of `n` blocks: the true edge of block `e`, or the false edge of block `e - n`. */
  function Pred(n: nat, e: nat): nat {
    if e < n then e else e - n
  }

  function Succ(g: Graph, e: nat): nat
    requires e < 2 * |g|
  {
    if e < |g| then g[e].jt else g[e - |g|].jf
  }

  /** Edge `e` leads to the block that edge `e'` leaves. */
  function EdgeRel(g: Graph): Rel {
    (e: nat, e': nat) => e < 2 * |g| && e' < 2 * |g| && g[Pred(|g|, e)].s.Jmp? && Succ(g, e) == Pred(|g|, e')
  }

  function EdgesOf(n: nat, root: nat): Entry {
    (e: nat) => e < 2 * n && Pred(n, e) == root
  }

  function Max(a: int, b: int): (m: int)
    ensures m >= a && m >= b && m in {a, b}
  {
    if a > b then a else b
  }

  /** A levelled block has its exact level: 0 for a return, else one more than its higher successor. */
  predicate ExactLevel(g: Graph, level: seq<int>, b: nat)
    requires |level| == |g| && b < |g|
  {
    if !g[b].s.Jmp? then level[b] == 0
    else
      && g[b].jt < |g| && g[b].jf < |g| && level[g[b].jt] >= 0 && level[g[b].jf] >= 0
      && level[b] == Max(level[g[b].jt], level[g[b].jf]) + 1
  }

  predicate ListOk(g: Graph, level: seq<int>, list: seq<nat>, l: int)
    requires |level| == |g|
  {
    Distinct(list) && forall k :: 0 <= k < |list| ==> list[k] < |g| && level[list[k]] == l
  }

  /** The level lists: list `l` holds, once each, exactly the blocks of level `l`. */
  predicate LevelLists(g: Graph, level: seq<int>, levels: seq<seq<nat>>) {
    && |level| == |g| && |levels| == |g|
    && (forall l :: 0 <= l < |levels| ==> ListOk(g, level, levels[l], l))
    && (forall b: nat :: b < |g| && level[b] >= 0 ==> level[b] < |levels| && b in levels[level[b]])
  }

  lemma {:induction false} BoundedSize(s: set<nat>, n: nat)
    requires forall x :: x in s ==> x < n
    ensures |s| <= n
  {
    if n > 0 {
      var s' := s - {n - 1};
      BoundedSize(s', n - 1);
      assert |s| <= |s'| + 1 by {
        if n - 1 in s { assert s == s' + {n - 1}; } else { assert s == s'; }
      }
    } else {
      assert s == {};
    }
  }

  /** Every levelled block has its exact level and is on its level's list. */
  predicate LevelInv(g: Graph, level: seq<int>, levels: seq<seq<nat>>) {
    && LevelLists(g, level, levels)
    && forall b: nat {:trigger ExactLevel(g, level, b)} :: b < |g| && level[b] >= 0 ==> ExactLevel(g, level, b)
  }

  /** Below a block of level `l` there are blocks of every lower level, so `l` is less than the number
      of blocks. */
  lemma {:induction false} LevelChain(g: Graph, level: seq<int>, levels: seq<seq<nat>>, b: nat)
    returns (chain: set<nat>)
    requires LevelInv(g, level, levels) && b < |g| && level[b] >= 0
    ensures |chain| == level[b] + 1
    ensures forall x :: x in chain ==> x < |g| && 0 <= level[x] <= level[b]
    decreases level[b]
  {
    assert ExactLevel(g, level, b);
    if g[b].s.Jmp? {
      var c := if level[g[b].jt] > level[g[b].jf] then g[b].jt else g[b].jf;
      chain := LevelChain(g, level, levels, c);
      assert b !in chain;
      chain := chain + {b};
    } else {
      chain := {b};
    }
  }

  lemma LevelBound(g: Graph, level: seq<int>, levels: seq<seq<nat>>, b: nat, l: nat)
    requires LevelInv(g, level, levels) && b < |g| && level[b] < 0 && ExactLevel(g, level[b := l], b)
    requires g[b].s.Jmp? ==> g[b].jt != b && g[b].jf != b
    ensures l < |g|
  {
    if g[b].s.Jmp? {
      var c := if level[g[b].jt] > level[g[b].jf] then g[b].jt else g[b].jf;
      var chain := LevelChain(g, level, levels, c);
      assert b !in chain;
      BoundedSize(chain + {b}, |g|);
    }
  }

  lemma ListsStep(g: Graph, level: seq<int>, levels: seq<seq<nat>>, b: nat, l: nat)
    requires LevelLists(g, level, levels) && b < |g| && level[b] < 0 && l < |g|
    ensures LevelLists(g, level[b := l], levels[l := [b] + levels[l]])
  {
    var level', levels' := level[b := l], levels[l := [b] + levels[l]];
    assert ListOk(g, level, levels[l], l);
    forall k | 0 <= k < |levels'| ensures ListOk(g, level', levels'[k], k) {
      assert ListOk(g, level, levels[k], k);
    }
    forall x: nat | x < |g| && level'[x] >= 0 ensures level'[x] < |levels'| && x in levels'[level'[x]] {
      if x == b {
        assert levels'[l][0] == b;
      } else {
        assert x in levels[level[x]];
      }
    }
  }

  lemma ExactStep(g: Graph, level: seq<int>, b: nat, l: nat, x: nat)
    requires |level| == |g| && b < |g| && x < |g| && x != b && level[b] < 0 && ExactLevel(g, level, x)
    ensures ExactLevel(g, level[b := l], x)
  {
  }

  lemma LevelStep(g: Graph, level: seq<int>, levels: seq<seq<nat>>, b: nat, l: nat)
    requires LevelInv(g, level, levels) && b < |g| && level[b] < 0
    requires g[b].s.Jmp? ==> g[b].jt != b && g[b].jf != b
    requires ExactLevel(g, level[b := l], b)
    ensures l < |g| && LevelInv(g, level[b := l], levels[l := [b] + levels[l]])
  {
    LevelBound(g, level, levels, b, l);
    ListsStep(g, level, levels, b, l);
    var level' := level[b := l];
    forall x: nat | x < |g| && level'[x] >= 0 ensures ExactLevel(g, level', x) {
      if x != b {
        ExactStep(g, level, b, l, x);
      }
    }
  }

  /** `live` are the levelled blocks. */
  predicate Are(level: seq<int>, live: set<nat>) {
    (forall b :: b in live ==> b < |level| && level[b] >= 0) &&
    forall b :: 0 <= b < |level| && level[b] >= 0 ==> b in live
  }

  predicate Within(level: seq<int>, s: set<nat>) {
    forall b :: 0 <= b < |level| && level[b] >= 0 ==> b in s
  }

  /** The outcome of levelling from `root`: exactly the reachable blocks are levelled, each has its
      exact level, no block is above the root, and the level lists hold them. */
  ghost predicate Levelled(g: Graph, root: nat, level: seq<int>, levels: seq<seq<nat>>, live: set<nat>) {
    && root in live
    && LevelInv(g, level, levels)
    && Are(level, live)
    && SuccClosed(g, live)
    && live == Reachable(BlockRel(g), Only(root), |g|)
    && forall b :: b in live ==> level[b] <= level[root]
  }

  /** Levels strictly fall along every edge out of a levelled block. */
  lemma EdgesFall(g: Graph, level: seq<int>, levels: seq<seq<nat>>, live: set<nat>)
    requires LevelInv(g, level, levels) && Are(level, live) && SuccClosed(g, live)
    ensures forall q: nat, c: nat :: q in live && BlockRel(g)(q, c) ==> c in live && level[c] < level[q]
    ensures Leveled(g, level)
  {
    forall q: nat, c: nat | q in live && BlockRel(g)(q, c) ensures c in live && level[c] < level[q] {
      assert ExactLevel(g, level, q);
    }
    forall b | 0 <= b < |g| && level[b] >= 0 && g[b].s.Jmp?
      ensures g[b].jt < |g| && g[b].jf < |g| && 0 <= level[g[b].jt] < level[b] && 0 <= level[g[b].jf] < level[b]
    {
      assert b in live && ExactLevel(g, level, b);
    }
  }

  lemma {:induction false} RootIsHighest(g: Graph, root: nat, level: seq<int>, live: set<nat>, path: seq<nat>, b: nat)
    requires |level| == |g| && (forall x :: x in live ==> x < |g|) && root in live
    requires forall q: nat, c: nat :: q in live && BlockRel(g)(q, c) ==> c in live && level[c] < level[q]
    requires Leads(BlockRel(g), Only(root), path, b)
    ensures b in live && level[b] <= level[root]
  {
    if |path| > 1 {
      var q := ShortenPath(BlockRel(g), Only(root), path, b);
      RootIsHighest(g, root, level, live, path[..|path| - 1], q);
    }
  }

  /** A closed set of levelled blocks that is contained in every closed set with the root is the set
      of blocks reachable from the root. */
  lemma LeastIsReachable(g: Graph, root: nat, level: seq<int>, levels: seq<seq<nat>>, live: set<nat>)
    requires LevelInv(g, level, levels) && Are(level, live) && root in live && SuccClosed(g, live)
    requires forall s: set<nat> :: SuccClosed(g, s) && root in s ==> live <= s
    ensures Levelled(g, root, level, levels, live)
  {
    var rel, entry := BlockRel(g), Only(root);
    EdgesFall(g, level, levels, live);
    var reach := set b: nat | b < |g| && b in live && Reach(rel, entry, b);
    assert root in reach by { assert Leads(rel, entry, [root], root); }
    assert SuccClosed(g, reach) by {
      forall b: nat, c: nat | b in reach && rel(b, c) ensures c in reach {
        var path :| Leads(rel, entry, path, b);
        ExtendPath(rel, entry, path, b, c);
      }
      forall b | b in reach && g[b].s.Jmp? ensures g[b].jt in reach && g[b].jf in reach {
        assert rel(b, g[b].jt) && rel(b, g[b].jf);
      }
    }
    assert live <= reach;
    forall b: nat | Reach(rel, entry, b) ensures b in live && level[b] <= level[root] {
      var path :| Leads(rel, entry, path, b);
      RootIsHighest(g, root, level, live, path, b);
    }
    assert live == Reachable(rel, entry, |g|);
  }

  predicate SeenFrom(level: seq<int>, live: set<nat>, seen: set<nat>, i: int)
    requires forall b :: b in live ==> b < |level|
  {
    forall b :: b in live ==> (b in seen <==> level[b] >= i)
  }

  /** The set with all bits on. */
  function Below(n: nat): (s: set<nat>)
    ensures forall x: nat :: x in s <==> x < n
  {
    if n == 0 then {} else Below(n - 1) + {n - 1}
  }

  /** `d[b]` is exactly what lies on every path to `b`, for each live `b`. */
  ghost predicate OnEveryPath(rel: Rel, entry: Entry, live: set<nat>, d: seq<set<nat>>) {
    && (forall b :: b in live ==> b < |d|)
    && forall b :: b in live ==> d[b] == OnEvery(rel, entry, |d|, b)
  }

  ghost function LiveEdges(g: Graph, root: nat): set<nat> {
    Reachable(EdgeRel(g), EdgesOf(|g|, root), 2 * |g|)
  }

  function EdgesFrom(n: nat, live: set<nat>): set<nat> {
    set e | 0 <= e < 2 * n && Pred(n, e) in live
  }

  lemma {:induction false} EdgeReached(g: Graph, root: nat, level: seq<int>, levels: seq<seq<nat>>, live: set<nat>,
                                       path: seq<nat>, b: nat, e: nat)
    requires Levelled(g, root, level, levels, live) && Leads(BlockRel(g), Only(root), path, b)
    requires e < 2 * |g| && Pred(|g|, e) == b
    ensures Reach(EdgeRel(g), EdgesOf(|g|, root), e)
  {
    if |path| == 1 {
      assert Leads(EdgeRel(g), EdgesOf(|g|, root), [e], e);
    } else {
      var q := ShortenPath(BlockRel(g), Only(root), path, b);
      var e' := if g[q].jt == b then q else |g| + q;
      EdgeReached(g, root, level, levels, live, path[..|path| - 1], q, e');
      var epath :| Leads(EdgeRel(g), EdgesOf(|g|, root), epath, e');
      ExtendPath(EdgeRel(g), EdgesOf(|g|, root), epath, e', e);
    }
  }

  lemma {:induction false} EdgeInside(g: Graph, root: nat, level: seq<int>, levels: seq<seq<nat>>, live: set<nat>,
                                      epath: seq<nat>, e: nat)
    requires Levelled(g, root, level, levels, live) && Leads(EdgeRel(g), EdgesOf(|g|, root), epath, e)
    ensures e < 2 * |g| && Pred(|g|, e) in live
  {
    if |epath| > 1 {
      var e' := ShortenPath(EdgeRel(g), EdgesOf(|g|, root), epath, e);
      EdgeInside(g, root, level, levels, live, epath[..|epath| - 1], e');
      assert g[Pred(|g|, e')].s.Jmp?;
    }
  }

  /** An edge can be taken exactly when the block it leaves can be reached. */
  lemma EdgeLiveness(g: Graph, root: nat, level: seq<int>, levels: seq<seq<nat>>, live: set<nat>)
    requires Levelled(g, root, level, levels, live)
    ensures LiveEdges(g, root) == EdgesFrom(|g|, live)
  {
    forall e: nat | e < 2 * |g| ensures e in LiveEdges(g, root) <==> e in EdgesFrom(|g|, live) {
      if Pred(|g|, e) in live {
        var path :| Leads(BlockRel(g), Only(root), path, Pred(|g|, e));
        EdgeReached(g, root, level, levels, live, path, Pred(|g|, e), e);
      }
      if Reach(EdgeRel(g), EdgesOf(|g|, root), e) {
        var epath :| Leads(EdgeRel(g), EdgesOf(|g|, root), epath, e);
        EdgeInside(g, root, level, levels, live, epath, e);
      }
    }
  }

  lemma EdgeOrder(g: Graph, root: nat, level: seq<int>, levels: seq<seq<nat>>, live: set<nat>)
    requires Levelled(g, root, level, levels, live)
    ensures Bounded(EdgeRel(g), EdgesOf(|g|, root), 2 * |g|)
    ensures forall e: nat, e': nat :: e < 2 * |g| && Pred(|g|, e) in live && EdgeRel(g)(e, e') ==>
              Pred(|g|, e') in live && level[Pred(|g|, e')] < level[Pred(|g|, e)]
  {
    EdgesFall(g, level, levels, live);
    forall e: nat, e': nat | e < 2 * |g| && Pred(|g|, e) in live && EdgeRel(g)(e, e')
      ensures Pred(|g|, e') in live && level[Pred(|g|, e')] < level[Pred(|g|, e)]
    {
      assert BlockRel(g)(Pred(|g|, e), Pred(|g|, e'));
    }
  }

  /** All edges out of levels above `l` have been visited, and none from below. */
  predicate EdgesSeen(g: Graph, level: seq<int>, live: set<nat>, seen: set<nat>, l: int)
    requires |level| == |g| && forall e :: e in live ==> e < 2 * |g|
  {
    forall e :: e in live ==> (level[Pred(|g|, e)] > l ==> e in seen) && (e in seen ==> level[Pred(|g|, e)] >= l)
  }

  function EdgeUpdate(g: Graph, d: seq<set<nat>>, e: nat): (d': seq<set<nat>>)
    requires |d| == 2 * |g| && e < 2 * |g| && (g[Pred(|g|, e)].s.Jmp? ==> Succ(g, e) < |g|)
    ensures |d'| == |d|
  {
    var d1 := d[e := d[e] + {e}];
    if !g[Pred(|g|, e)].s.Jmp? then d1
    else
      var s := Succ(g, e);
      var d2 := d1[s := d1[s] * d1[e]];
      d2[|g| + s := d2[|g| + s] * d2[e]]
  }

  lemma EdgeUpdateVisits(g: Graph, live: set<nat>, d: seq<set<nat>>, e: nat)
    requires |d| == 2 * |g| && e < 2 * |g|
    requires g[Pred(|g|, e)].s.Jmp? ==> Succ(g, e) < |g| && Succ(g, e) != Pred(|g|, e)
    ensures MeetVisited(EdgeRel(g), live, d, EdgeUpdate(g, d, e), e)
  {
  }

  lemma EdgeVisit(g: Graph, root: nat, level: seq<int>, levels: seq<seq<nat>>, live: set<nat>, seen: set<nat>,
                  d: seq<set<nat>>, e: nat)
    requires Levelled(g, root, level, levels, live) && |d| == 2 * |g|
    requires LiveEdges(g, root) == EdgesFrom(|g|, live)
    requires MeetInv(EdgeRel(g), EdgesOf(|g|, root), LiveEdges(g, root), seen, d)
    requires e < 2 * |g| && Pred(|g|, e) in live && e !in seen
    requires EdgesSeen(g, level, LiveEdges(g, root), seen, level[Pred(|g|, e)])
    ensures g[Pred(|g|, e)].s.Jmp? ==> Succ(g, e) < |g|
    ensures MeetInv(EdgeRel(g), EdgesOf(|g|, root), LiveEdges(g, root), seen + {e}, EdgeUpdate(g, d, e))
  {
    EdgeOrder(g, root, level, levels, live);
    if g[Pred(|g|, e)].s.Jmp? {
      assert EdgeRel(g)(e, Succ(g, e)) by { EdgesFall(g, level, levels, live); }
    }
    EdgeUpdateVisits(g, LiveEdges(g, root), d, e);
    MeetVisit(EdgeRel(g), EdgesOf(|g|, root), LiveEdges(g, root), seen, d, EdgeUpdate(g, d, e), e);
  }

  /** Block `b` is above level `i`, or among the first `j` blocks of the list of level `i`. */
  predicate Passed(level: seq<int>, list: seq<nat>, i: int, j: int, b: nat)
    requires b < |level| && 0 <= j <= |list|
  {
    level[b] > i || exists k :: 0 <= k < j && list[k] == b
  }

  /** A sweep down the levels has visited all blocks above level `i` and the first `j` of level `i`. */
  predicate UpTo(level: seq<int>, live: set<nat>, seen: set<nat>, list: seq<nat>, i: int, j: int)
    requires (forall b :: b in live ==> b < |level|) && 0 <= j <= |list|
  {
    forall b {:trigger b in seen} :: b in live ==> (b in seen <==> Passed(level, list, i, j, b))
  }

  lemma UpToStart(g: Graph, level: seq<int>, levels: seq<seq<nat>>, live: set<nat>, seen: set<nat>, i: nat)
    requires LevelLists(g, level, levels) && Are(level, live) && i < |levels| && SeenFrom(level, live, seen, i + 1)
    ensures UpTo(level, live, seen, levels[i], i, 0)
  {
  }

  lemma UpToEnd(g: Graph, level: seq<int>, levels: seq<seq<nat>>, live: set<nat>, seen: set<nat>, i: nat)
    requires LevelLists(g, level, levels) && Are(level, live) && i < |levels|
    requires UpTo(level, live, seen, levels[i], i, |levels[i]|)
    ensures SeenFrom(level, live, seen, i)
  {
    assert ListOk(g, level, levels[i], i);
    forall b | b in live ensures b in seen <==> level[b] >= i {
      if level[b] == i {
        assert b in levels[i];
      }
    }
  }

  /** The next block of the list is not yet visited, all above it are and none below. */
  lemma UpToHere(g: Graph, level: seq<int>, levels: seq<seq<nat>>, live: set<nat>, seen: set<nat>, i: nat, j: nat)
    requires LevelLists(g, level, levels) && Are(level, live) && i < |levels| && j < |levels[i]|
    requires UpTo(level, live, seen, levels[i], i, j)
    ensures var b := levels[i][j];
            && b in live && level[b] == i && b !in seen
            && forall q :: q in live ==> (level[q] > level[b] ==> q in seen) && (q in seen ==> level[q] >= level[b])
  {
    var list, b := levels[i], levels[i][j];
    assert ListOk(g, level, list, i);
    assert !Passed(level, list, i, j, b);
    forall q | q in live && q in seen ensures level[q] >= i {
      assert Passed(level, list, i, j, q);
    }
  }

  lemma UpToNext(g: Graph, level: seq<int>, levels: seq<seq<nat>>, live: set<nat>, seen: set<nat>, i: nat, j: nat)
    requires LevelLists(g, level, levels) && Are(level, live) && i < |levels| && j < |levels[i]|
    requires UpTo(level, live, seen, levels[i], i, j)
    ensures UpTo(level, live, seen + {levels[i][j]}, levels[i], i, j + 1)
  {
    var list, b := levels[i], levels[i][j];
    forall q | q in live ensures q in seen + {b} <==> Passed(level, list, i, j + 1, q) {
      assert q in seen <==> Passed(level, list, i, j, q);
      if Passed(level, list, i, j, q) && level[q] <= i {
        var k :| 0 <= k < j && list[k] == q;
      }
      if q == b {
        assert list[j] == q;
      }
    }
  }

  /** The edges out of blocks of level `i` and above. */
  function EdgesAbove(n: nat, level: seq<int>, live: set<nat>, i: int): set<nat>
    requires |level| == n && forall e :: e in live ==> e < 2 * n
  {
    set e | e in live && level[Pred(n, e)] >= i
  }

  /** The edges out of blocks above level `i` and out of the first `j` of level `i`. */
  function EdgesPassed(n: nat, level: seq<int>, live: set<nat>, list: seq<nat>, i: int, j: int): set<nat>
    requires |level| == n && (forall e :: e in live ==> e < 2 * n) && 0 <= j <= |list|
  {
    set e | e in live && Passed(level, list, i, j, Pred(n, e))
  }

  lemma EdgesPassedHere(g: Graph, level: seq<int>, levels: seq<seq<nat>>, live: set<nat>, i: nat, j: nat)
    requires LevelLists(g, level, levels) && (forall e :: e in live ==> e < 2 * |g|) && i < |levels| && j < |levels[i]|
    ensures var b, seen := levels[i][j], EdgesPassed(|g|, level, live, levels[i], i, j);
            && b < |g| && level[b] == i && b !in seen && |g| + b !in seen && EdgesSeen(g, level, live, seen, level[b])
  {
    var list, b := levels[i], levels[i][j];
    assert ListOk(g, level, list, i);
    assert !Passed(level, list, i, j, b);
  }

  lemma EdgesPassedNext(n: nat, level: seq<int>, live: set<nat>, list: seq<nat>, i: nat, j: nat)
    requires |level| == n && (forall e :: e in live ==> e < 2 * n) && j < |list| && list[j] in live
    requires n + list[j] in live && list[j] < n
    ensures EdgesPassed(n, level, live, list, i, j + 1) ==
              EdgesPassed(n, level, live, list, i, j) + {list[j]} + {n + list[j]}
  {
    var b := list[j];
    forall e | e in live
      ensures Passed(level, list, i, j + 1, Pred(n, e)) <==> Passed(level, list, i, j, Pred(n, e)) || Pred(n, e) == b
    {
      if Passed(level, list, i, j, Pred(n, e)) && level[Pred(n, e)] <= i {
        var k :| 0 <= k < j && list[k] == Pred(n, e);
      }
      if Pred(n, e) == b {
        assert list[j] == Pred(n, e);
      }
    }
  }

  lemma EdgesPassedEnds(g: Graph, level: seq<int>, levels: seq<seq<nat>>, live: set<nat>, i: nat)
    requires LevelLists(g, level, levels) && (forall e :: e in live ==> e < 2 * |g|) && i < |levels|
    ensures EdgesPassed(|g|, level, live, levels[i], i, 0) == EdgesAbove(|g|, level, live, i + 1)
    ensures EdgesPassed(|g|, level, live, levels[i], i, |levels[i]|) == EdgesAbove(|g|, level, live, i)
  {
    assert ListOk(g, level, levels[i], i);
    forall e | e in live ensures Passed(level, levels[i], i, |levels[i]|, Pred(|g|, e)) <==> level[Pred(|g|, e)] >= i {
      if level[Pred(|g|, e)] == i {
        assert Pred(|g|, e) in levels[i];
      }
    }
  }

  lemma BothLive(n: nat, level: seq<int>, live: set<nat>, b: nat)
    requires Are(level, live) && b < |level| == n && level[b] >= 0
    ensures b in live && b in EdgesFrom(n, live) && n + b in EdgesFrom(n, live)
  {
  }

  class Analysis {
    const g: Graph
    const root: nat
    /** A witness that the graph is acyclic. */
    ghost const rank: seq<int>
    var marked: seq<bool>
    var level: seq<int>
    var levels: seq<seq<nat>>
    var dom: seq<set<nat>>
    var edom: seq<set<nat>>
    var closure: seq<set<nat>>
    ghost var done: set<nat>

    constructor (g: Graph, root: nat, ghost rank: seq<int>)
      ensures this.g == g && this.root == root && this.rank == rank
    {
      this.g := g;
      this.root := root;
      this.rank := rank;
      marked := [];
      level := [];
      levels := [];
      dom, edom, closure := [], [], [];
      done := {};
    }

    /** `find_levels_r`: level everything `b` reaches. */
    method FindLevelsR(b: nat)
      requires Leveled(g, rank) && b < |g| && rank[b] >= 0
      requires LevelInv(g, level, levels) && |marked| == |g|
      requires forall i :: 0 <= i < |g| && level[i] >= 0 ==> marked[i]
      requires forall i :: 0 <= i < |g| && marked[i] && level[i] < 0 ==> rank[i] > rank[b]
      modifies this`marked, this`level, this`levels
      ensures LevelInv(g, level, levels) && |marked| == |g| && level[b] >= 0
      ensures forall i :: 0 <= i < |g| && level[i] >= 0 ==> marked[i]
      ensures forall i :: 0 <= i < |g| && old(level)[i] >= 0 ==> level[i] >= 0
      ensures forall i :: 0 <= i < |g| ==> (marked[i] && level[i] < 0 <==> old(marked)[i] && old(level)[i] < 0)
      ensures forall s: set<nat> :: SuccClosed(g, s) && b in s && Within(old(level), s) ==> Within(level, s)
      decreases rank[b]
    {
      if marked[b] {
        return;
      }
      marked := marked[b := true];
      if g[b].s.Jmp? {
        FindLevelsR(g[b].jt);
        FindLevelsR(g[b].jf);
        Place(b, Max(level[g[b].jt], level[g[b].jf]) + 1);
      } else {
        Place(b, 0);
      }
    }

    /** Give `b` its level and put it at the front of that level's list. */
    method Place(b: nat, l: nat)
      requires LevelInv(g, level, levels) && b < |g| && level[b] < 0
      requires g[b].s.Jmp? ==> g[b].jt != b && g[b].jf != b
      requires ExactLevel(g, level[b := l], b)
      modifies this`level, this`levels
      ensures LevelInv(g, level, levels) && level == old(level)[b := l]
    {
      LevelStep(g, level, levels, b, l);
      level := level[b := l];
      levels := levels[l := [b] + levels[l]];
    }

    /** `find_levels` */
    method FindLevels()
      requires Leveled(g, rank) && root < |g| && rank[root] >= 0
      modifies this`marked, this`level, this`levels, this`done
      ensures Levelled(g, root, level, levels, done) && Leveled(g, level)
    {
      levels := seq(|g|, _ => []);
      level := seq(|g|, _ => -1);
      marked := seq(|g|, _ => false);
      FindLevelsR(root);
      done := set b | 0 <= b < |g| && level[b] >= 0;
      assert SuccClosed(g, done) by {
        forall b | b in done && g[b].s.Jmp? ensures g[b].jt in done && g[b].jf in done {
          assert ExactLevel(g, level, b);
        }
      }
      LeastIsReachable(g, root, level, levels, done);
      EdgesFall(g, level, levels, done);
    }

    /** `find_dom`: the blocks on every path from the root. */
    method FindDom()
      requires Levelled(g, root, level, levels, done)
      modifies this`dom
      ensures |dom| == |g| && OnEveryPath(BlockRel(g), Only(root), done, dom)
    {
      EdgesFall(g, level, levels, done);
      var all := Below(|g|);
      dom := seq(|g|, _ => all)[root := {}];
      ghost var seen: set<nat> := {};
      for i := level[root] + 1 downto 0
        invariant |dom| == |g| && MeetInv(BlockRel(g), Only(root), done, seen, dom)
        invariant SeenFrom(level, done, seen, i)
      {
        seen := DomLevel(i, seen);
      }
    }

    method DomLevel(i: nat, ghost seen: set<nat>) returns (ghost seen': set<nat>)
      requires Levelled(g, root, level, levels, done) && |dom| == |g| && i < |levels|
      requires MeetInv(BlockRel(g), Only(root), done, seen, dom) && SeenFrom(level, done, seen, i + 1)
      modifies this`dom
      ensures |dom| == |g|
      ensures MeetInv(BlockRel(g), Only(root), done, seen', dom) && SeenFrom(level, done, seen', i)
    {
      seen' := seen;
      UpToStart(g, level, levels, done, seen, i);
      for j := 0 to |levels[i]|
        invariant |dom| == |g| && MeetInv(BlockRel(g), Only(root), done, seen', dom)
        invariant UpTo(level, done, seen', levels[i], i, j)
      {
        UpToHere(g, level, levels, done, seen', i, j);
        UpToNext(g, level, levels, done, seen', i, j);
        VisitDom(levels[i][j], seen');
        seen' := seen' + {levels[i][j]};
      }
      UpToEnd(g, level, levels, done, seen', i);
    }

    method VisitDom(b: nat, ghost seen: set<nat>)
      requires Levelled(g, root, level, levels, done) && |dom| == |g|
      requires MeetInv(BlockRel(g), Only(root), done, seen, dom)
      requires b in done && b !in seen
      requires forall q :: q in done ==> (level[q] > level[b] ==> q in seen) && (q in seen ==> level[q] >= level[b])
      modifies this`dom
      ensures |dom| == |g| && MeetInv(BlockRel(g), Only(root), done, seen + {b}, dom)
    {
      EdgesFall(g, level, levels, done);
      ghost var d := dom;
      dom := dom[b := dom[b] + {b}];
      if g[b].s.Jmp? {
        assert BlockRel(g)(b, g[b].jt) && BlockRel(g)(b, g[b].jf);
        var jt, jf := g[b].jt, g[b].jf;
        dom := dom[jt := dom[jt] * dom[b]];
        dom := dom[jf := dom[jf] * dom[b]];
      }
      MeetVisit(BlockRel(g), Only(root), done, seen, d, dom, b);
    }

    /** `find_closure`: the blocks from which a block can be reached. */
    method FindClosure()
      requires Levelled(g, root, level, levels, done)
      modifies this`closure
      ensures |closure| == |g| && forall b :: b in done ==> closure[b] == Reaching(BlockRel(g), done, b)
    {
      closure := seq(|g|, _ => {});
      ghost var seen: set<nat> := {};
      for i := level[root] + 1 downto 0
        invariant |closure| == |g| && JoinInv(BlockRel(g), done, seen, closure)
        invariant SeenFrom(level, done, seen, i)
      {
        seen := ClosureLevel(i, seen);
      }
    }

    method ClosureLevel(i: nat, ghost seen: set<nat>) returns (ghost seen': set<nat>)
      requires Levelled(g, root, level, levels, done) && |closure| == |g| && i < |levels|
      requires JoinInv(BlockRel(g), done, seen, closure) && SeenFrom(level, done, seen, i + 1)
      modifies this`closure
      ensures |closure| == |g|
      ensures JoinInv(BlockRel(g), done, seen', closure) && SeenFrom(level, done, seen', i)
    {
      seen' := seen;
      UpToStart(g, level, levels, done, seen, i);
      for j := 0 to |levels[i]|
        invariant |closure| == |g| && JoinInv(BlockRel(g), done, seen', closure)
        invariant UpTo(level, done, seen', levels[i], i, j)
      {
        UpToHere(g, level, levels, done, seen', i, j);
        UpToNext(g, level, levels, done, seen', i, j);
        VisitClosure(levels[i][j], seen');
        seen' := seen' + {levels[i][j]};
      }
      UpToEnd(g, level, levels, done, seen', i);
    }

    method VisitClosure(b: nat, ghost seen: set<nat>)
      requires Levelled(g, root, level, levels, done) && |closure| == |g|
      requires JoinInv(BlockRel(g), done, seen, closure)
      requires b in done && b !in seen
      requires forall q :: q in done ==> (level[q] > level[b] ==> q in seen) && (q in seen ==> level[q] >= level[b])
      modifies this`closure
      ensures |closure| == |g| && JoinInv(BlockRel(g), done, seen + {b}, closure)
    {
      EdgesFall(g, level, levels, done);
      ghost var d := closure;
      closure := closure[b := closure[b] + {b}];
      if g[b].s.Jmp? {
        assert BlockRel(g)(b, g[b].jt) && BlockRel(g)(b, g[b].jf);
        var jt, jf := g[b].jt, g[b].jf;
        closure := closure[jt := closure[jt] + closure[b]];
        closure := closure[jf := closure[jf] + closure[b]];
      }
      JoinVisit(BlockRel(g), done, seen, d, closure, b);
    }

    /** `find_edom`: the edges on every path from the root that ends with a given edge. */
    method FindEdom()
      requires Levelled(g, root, level, levels, done)
      modifies this`edom
      ensures |edom| == 2 * |g|
      ensures OnEveryPath(EdgeRel(g), EdgesOf(|g|, root), LiveEdges(g, root), edom)
    {
      EdgeLiveness(g, root, level, levels, done);
      var all := Below(2 * |g|);
      edom := seq(2 * |g|, _ => all)[root := {}][|g| + root := {}];
      ghost var seen: set<nat> := {};
      assert MeetInv(EdgeRel(g), EdgesOf(|g|, root), LiveEdges(g, root), seen, edom) by {
        forall e | e in LiveEdges(g, root) ensures edom[e] == Agreed(EdgeRel(g), EdgesOf(|g|, root), seen, edom, e) {
          forall x: nat ensures x in edom[e] <==> x in Agreed(EdgeRel(g), EdgesOf(|g|, root), seen, edom, e) {
            assert x < |edom| ==>
              (AgreedOn(EdgeRel(g), EdgesOf(|g|, root), seen, edom, e, x) <==> Pred(|g|, e) != root);
          }
        }
      }
      ghost var edges := LiveEdges(g, root);
      assert seen == EdgesAbove(|g|, level, edges, level[root] + 1);
      for i := level[root] + 1 downto 0
        invariant |edom| == 2 * |g|
        invariant MeetInv(EdgeRel(g), EdgesOf(|g|, root), edges, EdgesAbove(|g|, level, edges, i), edom)
      {
        EdomLevel(i);
      }
      assert EdgesAbove(|g|, level, edges, 0) == edges;
    }

    method EdomLevel(i: nat)
      requires Levelled(g, root, level, levels, done) && |edom| == 2 * |g| && i < |levels|
      requires LiveEdges(g, root) == EdgesFrom(|g|, done)
      requires MeetInv(EdgeRel(g), EdgesOf(|g|, root), LiveEdges(g, root),
                       EdgesAbove(|g|, level, LiveEdges(g, root), i + 1), edom)
      modifies this`edom
      ensures |edom| == 2 * |g|
      ensures MeetInv(EdgeRel(g), EdgesOf(|g|, root), LiveEdges(g, root),
                      EdgesAbove(|g|, level, LiveEdges(g, root), i), edom)
    {
      ghost var edges := LiveEdges(g, root);
      EdgesPassedEnds(g, level, levels, edges, i);
      for j := 0 to |levels[i]|
        invariant |edom| == 2 * |g|
        invariant MeetInv(EdgeRel(g), EdgesOf(|g|, root), edges, EdgesPassed(|g|, level, edges, levels[i], i, j), edom)
      {
        EdomNext(i, j);
      }
    }

    method EdomNext(i: nat, j: nat)
      requires Levelled(g, root, level, levels, done) && |edom| == 2 * |g| && i < |levels| && j < |levels[i]|
      requires LiveEdges(g, root) == EdgesFrom(|g|, done)
      requires MeetInv(EdgeRel(g), EdgesOf(|g|, root), LiveEdges(g, root),
                       EdgesPassed(|g|, level, LiveEdges(g, root), levels[i], i, j), edom)
      modifies this`edom
      ensures |edom| == 2 * |g|
      ensures MeetInv(EdgeRel(g), EdgesOf(|g|, root), LiveEdges(g, root),
                      EdgesPassed(|g|, level, LiveEdges(g, root), levels[i], i, j + 1), edom)
    {
      EdgesHere(i, j);
      PropBoth(levels[i][j], EdgesPassed(|g|, level, LiveEdges(g, root), levels[i], i, j));
    }

    lemma EdgesHere(i: nat, j: nat)
      requires Levelled(g, root, level, levels, done) && i < |levels| && j < |levels[i]|
      requires LiveEdges(g, root) == EdgesFrom(|g|, done)
      ensures var b, edges := levels[i][j], LiveEdges(g, root);
              var seen := EdgesPassed(|g|, level, edges, levels[i], i, j);
              && b in done && b < |g| && b !in seen && |g| + b !in seen && EdgesSeen(g, level, edges, seen, level[b])
              && EdgesPassed(|g|, level, edges, levels[i], i, j + 1) == seen + {b} + {|g| + b}
    {
      var edges := LiveEdges(g, root);
      EdgesPassedHere(g, level, levels, edges, i, j);
      BothLive(|g|, level, done, levels[i][j]);
      EdgesPassedNext(|g|, level, edges, levels[i], i, j);
    }

    method PropBoth(b: nat, ghost seen: set<nat>)
      requires Levelled(g, root, level, levels, done) && |edom| == 2 * |g|
      requires LiveEdges(g, root) == EdgesFrom(|g|, done)
      requires MeetInv(EdgeRel(g), EdgesOf(|g|, root), LiveEdges(g, root), seen, edom)
      requires b in done && b !in seen && |g| + b !in seen
      requires EdgesSeen(g, level, LiveEdges(g, root), seen, level[b])
      modifies this`edom
      ensures |edom| == 2 * |g|
      ensures MeetInv(EdgeRel(g), EdgesOf(|g|, root), LiveEdges(g, root), seen + {b} + {|g| + b}, edom)
    {
      PropEdom(b, seen);
      PropEdom(|g| + b, seen + {b});
    }

    method PropEdom(e: nat, ghost seen: set<nat>)
      requires Levelled(g, root, level, levels, done) && |edom| == 2 * |g|
      requires LiveEdges(g, root) == EdgesFrom(|g|, done)
      requires MeetInv(EdgeRel(g), EdgesOf(|g|, root), LiveEdges(g, root), seen, edom)
      requires e < 2 * |g| && Pred(|g|, e) in done && e !in seen
      requires EdgesSeen(g, level, LiveEdges(g, root), seen, level[Pred(|g|, e)])
      modifies this`edom
      ensures |edom| == 2 * |g| && MeetInv(EdgeRel(g), EdgesOf(|g|, root), LiveEdges(g, root), seen + {e}, edom)
    {
      EdgeVisit(g, root, level, levels, done, seen, edom, e);
      InsertAndIntersect(e);
    }

    method InsertAndIntersect(e: nat)
      requires |edom| == 2 * |g| && e < 2 * |g| && (g[Pred(|g|, e)].s.Jmp? ==> Succ(g, e) < |g|)
      modifies this`edom
      ensures edom == EdgeUpdate(g, old(edom), e)
    {
      edom := edom[e := edom[e] + {e}];
      if g[Pred(|g|, e)].s.Jmp? {
        var s := Succ(g, e);
        edom := edom[s := edom[s] * edom[e]];
        edom := edom[|g| + s := edom[|g| + s] * edom[e]];
      }
    }
  }
}
