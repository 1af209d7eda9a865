/** `or_pullup` and `and_pullup`: move a test up a chain, next to the tests of the same value.  The two
    functions are mirror images; `or` says which is meant. */
module Pullup {
  import opened Collections
  import opened Machine
  import opened Paths
  import opened Levels
  import opened ClosedGraph
  import opened NumberingPass
  import opened EdgeMoves
  import opened TestChains

  /** Past the head of a chain, a path is on the chain above `chain[j]` or no higher than `chain[j]`. */
  lemma {:induction false} PathFromHead(g: Graph, root: nat, level: seq<int>, or: bool, chain: seq<nat>, t: nat,
                                        rest: nat, j: nat, path: seq<nat>, z: nat)
    requires Leveled(g, level) && Chain(g, or, chain, t, rest) && HaveLevels(level, chain) && 0 < j < |chain|
    requires Leads(BlockRel(g), Only(root), path, z) && chain[0] in path
    ensures z < |g| && level[z] >= 0 && (level[z] <= level[chain[j]] || exists i :: 0 <= i < j && chain[i] == z)
  {
    if z != chain[0] {
      var q := ShortenPath(BlockRel(g), Only(root), path, z);
      assert path == path[..|path| - 1] + [z];
      PathFromHead(g, root, level, or, chain, t, rest, j, path[..|path| - 1], q);
      if i: nat :| 0 <= i < j && chain[i] == q {
        assert Link(g, or, chain, t, rest, i) && Link(g, or, chain, t, rest, j);
        assert z == t || z == chain[i + 1];
      }
    } else {
      assert chain[0] == z;
    }
  }

  /** A block dominated by the head of its chain has one predecessor, the one before it on the chain. */
  lemma OnePredecessor(g: Graph, root: nat, level: seq<int>, or: bool, chain: seq<nat>, t: nat, rest: nat, j: nat,
                       q: nat)
    requires Leveled(g, level) && Chain(g, or, chain, t, rest) && HaveLevels(level, chain) && 0 < j < |chain|
    requires OnAll(BlockRel(g), Only(root), chain[j], chain[0])
    requires Reach(BlockRel(g), Only(root), q) && BlockRel(g)(q, chain[j])
    ensures q == chain[j - 1] && Common(g[q], or) != chain[j]
  {
    var path :| Leads(BlockRel(g), Only(root), path, q);
    ExtendPath(BlockRel(g), Only(root), path, q, chain[j]);
    ChainFalls(g, level, or, chain, t, rest, 0, j);
    assert chain[0] in path + [chain[j]];
    assert chain[0] in path;
    PathFromHead(g, root, level, or, chain, t, rest, j, path, q);
    var i :| 0 <= i < j && chain[i] == q;
    assert Link(g, or, chain, t, rest, i) && Link(g, or, chain, t, rest, j);
    if i + 1 < j {
      ChainFalls(g, level, or, chain, t, rest, i + 1, j);
    }
  }

  /** What `or_pullup` looks for: walking from `x` along blocks that share target `t` and are dominated
      by `b`, the blocks up to and including the first one with, or without, value `v`. */
  function Walk(g: Graph, level: seq<int>, or: bool, t: nat, b: nat, dom: seq<set<nat>>, val: seq<nat>, v: nat,
                want: bool, x: nat): seq<nat>
    requires Leveled(g, level) && |dom| == |val| == |g| && x < |g| && level[x] >= 0
    decreases level[x]
  {
    if !g[x].s.Jmp? || Common(g[x], or) != t || b !in dom[x] then []
    else if (val[x] == v) == want then [x]
    else
      var r := Walk(g, level, or, t, b, dom, val, v, want, Along(g[x], or));
      if r == [] then [] else [x] + r
  }

  lemma {:induction false} WalkIsChain(g: Graph, level: seq<int>, or: bool, t: nat, b: nat, dom: seq<set<nat>>,
                                       val: seq<nat>, v: nat, want: bool, x: nat)
    requires Leveled(g, level) && |dom| == |val| == |g| && x < |g| && level[x] >= 0
    ensures var r := Walk(g, level, or, t, b, dom, val, v, want, x);
            r != [] ==> Walked(g, or, t, b, dom, val, v, want, r) && r[0] == x && HaveLevels(level, r)
    decreases level[x]
  {
    var r := Walk(g, level, or, t, b, dom, val, v, want, x);
    if |r| == 1 {
      assert Link(g, or, [x], t, Along(g[x], or), 0);
    } else if |r| > 1 {
      WalkIsChain(g, level, or, t, b, dom, val, v, want, Along(g[x], or));
      WalkedBefore(g, or, t, b, dom, val, v, want, x, r[1..]);
    }
  }

  predicate Walked(g: Graph, or: bool, t: nat, b: nat, dom: seq<set<nat>>, val: seq<nat>, v: nat, want: bool,
                   r: seq<nat>)
    requires |dom| == |val| == |g|
  {
    && |r| > 0 && r[|r| - 1] < |g| && Chain(g, or, r, t, Along(g[r[|r| - 1]], or))
    && (forall k :: 0 <= k < |r| ==> r[k] < |g| && b in dom[r[k]])
    && (forall k :: 0 <= k < |r| ==> r[k] < |g| && ((val[r[k]] == v) == want <==> k == |r| - 1))
  }

  lemma WalkedBefore(g: Graph, or: bool, t: nat, b: nat, dom: seq<set<nat>>, val: seq<nat>, v: nat, want: bool,
                     x: nat, r: seq<nat>)
    requires |dom| == |val| == |g| && Walked(g, or, t, b, dom, val, v, want, r)
    requires x < |g| && g[x].s.Jmp? && Common(g[x], or) == t && b in dom[x] && (val[x] == v) != want
    requires Along(g[x], or) == r[0]
    ensures Walked(g, or, t, b, dom, val, v, want, [x] + r)
  {
    var s, rest := [x] + r, Along(g[r[|r| - 1]], or);
    forall k | 0 <= k < |s| ensures Link(g, or, s, t, rest, k) {
      assert k > 0 ==> Link(g, or, r, t, rest, k - 1);
    }
  }

  /** The loops of `or_pullup`. */
  method FollowChain(g: Graph, level: seq<int>, or: bool, t: nat, b: nat, dom: seq<set<nat>>, val: seq<nat>, v: nat,
                     want: bool, x: nat)
    returns (found: bool, before: nat, last: nat)
    requires Leveled(g, level) && |dom| == |val| == |g| && x < |g| && level[x] >= 0
    ensures var r := Walk(g, level, or, t, b, dom, val, v, want, x);
            && found == (r != [])
            && (found ==> last == r[|r| - 1] && (|r| > 1 ==> before == r[|r| - 2]) && (last == x ==> |r| == 1))
  {
    ghost var all := Walk(g, level, or, t, b, dom, val, v, want, x);
    ghost var r := all;
    before, last := x, x;
    while true
      invariant last < |g| && 0 <= level[last] <= level[x] && (level[last] == level[x] ==> last == x)
      invariant r == Walk(g, level, or, t, b, dom, val, v, want, last) && (r == [] <==> all == [])
      invariant r != [] ==> all[|all| - 1] == r[|r| - 1] && (last == x ==> all == r)
      invariant r != [] && last != x ==> |all| > 1 && all[|all| - 2] == if |r| > 1 then r[|r| - 2] else before
      decreases level[last]
    {
      if !g[last].s.Jmp? || Common(g[last], or) != t || b !in dom[last] {
        return false, before, last;
      }
      if (val[last] == v) == want {
        return true, before, last;
      }
      r := Walk(g, level, or, t, b, dom, val, v, want, Along(g[last], or));
      before, last := last, Along(g[last], or);
    }
  }

  /** Two adjacent chains make one. */
  lemma ChainJoin(g: Graph, or: bool, r1: seq<nat>, r2: seq<nat>, t: nat, rest: nat)
    requires |r2| > 0 && Chain(g, or, r1, t, r2[0]) && Chain(g, or, r2, t, rest)
    ensures Chain(g, or, r1 + r2, t, rest)
  {
    forall k | 0 <= k < |r1 + r2| ensures Link(g, or, r1 + r2, t, rest, k) {
      if k < |r1| {
        assert Link(g, or, r1, t, r2[0], k);
      } else {
        assert Link(g, or, r2, t, rest, k - |r1|);
      }
    }
  }

  lemma ChainDistinct(g: Graph, level: seq<int>, or: bool, chain: seq<nat>, t: nat, rest: nat)
    requires Leveled(g, level) && Chain(g, or, chain, t, rest) && HaveLevels(level, chain)
    ensures Distinct(chain)
  {
    forall i, j | 0 <= i < j < |chain| ensures chain[i] != chain[j] {
      ChainFalls(g, level, or, chain, t, rest, i, j);
    }
  }

  /** The chain's edges once `pull` has been moved from behind `mid` to between `front` and `mid`. */
  function Relink(g: Graph, or: bool, front: seq<nat>, mid: seq<nat>, pull: nat): (h: Graph)
    requires |mid| > 0 && pull < |g| && mid[|mid| - 1] < |g| && (|front| > 0 ==> front[|front| - 1] < |g|)
    ensures |h| == |g|
  {
    var below := mid[|mid| - 1];
    var h1 := g[below := WithAlong(g[below], or, Along(g[pull], or))];
    var h2 := h1[pull := WithAlong(h1[pull], or, mid[0])];
    if front == [] then h2
    else
      var above := front[|front| - 1];
      h2[above := WithAlong(h2[above], or, pull)]
  }

  /** Only the three blocks at the seams change, and only where they continue. */
  lemma RelinkAt(g: Graph, or: bool, front: seq<nat>, mid: seq<nat>, pull: nat)
    requires |mid| > 0 && pull < |g| && mid[|mid| - 1] < |g| && (|front| > 0 ==> front[|front| - 1] < |g|)
    requires Distinct(front + mid + [pull])
    ensures var h, below := Relink(g, or, front, mid, pull), mid[|mid| - 1];
            && h[below] == WithAlong(g[below], or, Along(g[pull], or)) && h[pull] == WithAlong(g[pull], or, mid[0])
            && (|front| > 0 ==> h[front[|front| - 1]] == WithAlong(g[front[|front| - 1]], or, pull))
            && forall y :: 0 <= y < |g| && y != below && y != pull && (|front| > 0 ==> y != front[|front| - 1]) ==>
              h[y] == g[y]
  {
    var c, f, m := front + mid + [pull], |front|, |mid|;
    assert c[f + m] == pull && c[f + m - 1] == mid[m - 1] && (f > 0 ==> c[f - 1] == front[f - 1]);
  }

  /** The chain up to the pulled block. */
  lemma RelinkFront(g: Graph, or: bool, front: seq<nat>, mid: seq<nat>, pull: nat, t: nat, rest: nat, k: nat)
    requires |mid| > 0 && Chain(g, or, front + mid + [pull], t, rest) && Distinct(front + mid + [pull])
    requires pull < |g| && mid[|mid| - 1] < |g| && (|front| > 0 ==> front[|front| - 1] < |g|)
    requires k <= |front|
    ensures Link(Relink(g, or, front, mid, pull), or, front + [pull] + mid, t, rest, k)
  {
    var c, c', f, m := front + mid + [pull], front + [pull] + mid, |front|, |mid|;
    RelinkAt(g, or, front, mid, pull);
    assert c[f + m] == pull && c[f + m - 1] == mid[m - 1] && (f > 0 ==> c[f - 1] == front[f - 1]);
    assert Link(g, or, c, t, rest, f + m);
    if k < f {
      assert c'[k] == c[k] && Link(g, or, c, t, rest, k);
    }
  }

  /** The chain behind it. */
  lemma RelinkMiddle(g: Graph, or: bool, front: seq<nat>, mid: seq<nat>, pull: nat, t: nat, rest: nat, k: nat)
    requires |mid| > 0 && Chain(g, or, front + mid + [pull], t, rest) && Distinct(front + mid + [pull])
    requires pull < |g| && mid[|mid| - 1] < |g| && (|front| > 0 ==> front[|front| - 1] < |g|)
    requires |front| < k < |front| + 1 + |mid|
    ensures Link(Relink(g, or, front, mid, pull), or, front + [pull] + mid, t, rest, k)
  {
    var c, c', f, m := front + mid + [pull], front + [pull] + mid, |front|, |mid|;
    RelinkAt(g, or, front, mid, pull);
    assert c[f + m] == pull && c[f + m - 1] == mid[m - 1] && (f > 0 ==> c[f - 1] == front[f - 1]);
    assert Link(g, or, c, t, rest, f + m);
    assert c'[k] == c[k - 1] && Link(g, or, c, t, rest, k - 1);
  }

  /** Moving `pull` leaves a chain with the same targets. */
  lemma RelinkIsChain(g: Graph, or: bool, front: seq<nat>, mid: seq<nat>, pull: nat, t: nat, rest: nat)
    requires |mid| > 0 && Chain(g, or, front + mid + [pull], t, rest) && Distinct(front + mid + [pull])
    requires pull < |g| && mid[|mid| - 1] < |g| && (|front| > 0 ==> front[|front| - 1] < |g|)
    ensures Chain(Relink(g, or, front, mid, pull), or, front + [pull] + mid, t, rest)
    ensures SameTests(g, Relink(g, or, front, mid, pull))
  {
    forall k | 0 <= k < |front + [pull] + mid|
      ensures Link(Relink(g, or, front, mid, pull), or, front + [pull] + mid, t, rest, k)
    {
      if k <= |front| {
        RelinkFront(g, or, front, mid, pull, t, rest, k);
      } else {
        RelinkMiddle(g, or, front, mid, pull, t, rest, k);
      }
    }
  }

  /** A block after `n` of its edges to `from` have been turned to `to`, the true edge first. */
  function AfterEdges(b: Block, from: nat, to: nat, n: nat): Block {
    if n == 0 then b
    else if n == 1 then (if b.jt == from then b.(jt := to) else b.(jf := to))
    else b.(jt := to, jf := to)
  }

  function EdgesTo(b: Block, to: nat): nat {
    (if b.jt == to then 1 else 0) + (if b.jf == to then 1 else 0)
  }

  /** The predecessor loop: every edge to `from` now leads to `to`. */
  method RetargetPreds(h0: Graph, preds: seq<nat>, from: nat, to: nat) returns (h: Graph)
    requires from != to
    requires forall q :: q in preds ==> q < |h0| && h0[q].s.Jmp? && multiset(preds)[q] == EdgesTo(h0[q], from)
    ensures |h| == |h0|
    ensures forall y :: 0 <= y < |h0| ==> h[y] == if y in preds then Retarget(h0[y], from, to) else h0[y]
  {
    h := h0;
    for k := 0 to |preds|
      invariant |h| == |h0|
      invariant forall y :: 0 <= y < |h0| ==> h[y] == AfterEdges(h0[y], from, to, multiset(preds[..k])[y])
    {
      var q := preds[k];
      assert preds[..k + 1] == preds[..k] + [q];
      assert preds == preds[..k + 1] + preds[k + 1..];
      assert multiset(preds)[q] == multiset(preds[..k + 1])[q] + multiset(preds[k + 1..])[q];
      if h[q].jt == from {
        h := h[q := h[q].(jt := to)];
      } else {
        h := h[q := h[q].(jf := to)];
      }
    }
    assert preds[..|preds|] == preds;
    assert forall y: nat :: y in preds <==> y in multiset(preds);
  }

  /** Doubled levels leave room for `pull` just above `diff`. */
  function NewLevels(level: seq<int>, diff: nat, pull: nat): (lv: seq<int>)
    requires diff < |level| && pull < |level|
    ensures |lv| == |level|
    ensures forall y :: 0 <= y < |level| ==> lv[y] == if y == pull then 2 * level[diff] + 1 else 2 * level[y]
  {
    seq(|level|, y requires 0 <= y < |level| => if y == pull then 2 * level[diff] + 1 else 2 * level[y])
  }

  /** What the walk has found: a chain `front + mid + [pull]` of live blocks that, past its head, only the
      chain leads to. */
  ghost predicate Found(g: Graph, level: seq<int>, live: set<nat>, or: bool, front: seq<nat>, mid: seq<nat>,
                        pull: nat, t: nat, rest: nat) {
    && Leveled(g, level) && SuccClosed(g, live) && Are(level, live)
    && |mid| > 0 && Chain(g, or, front + mid + [pull], t, rest)
    && (forall x :: x in front + mid + [pull] ==> x in live)
    && forall y: nat :: y in live && y !in front + mid + [pull] && g[y].s.Jmp? ==>
         g[y].jt !in (front + mid + [pull])[1..] && g[y].jf !in (front + mid + [pull])[1..]
  }

  /** `g'` is `g` with the chain relinked and all other edges to its head turned to its new head. */
  ghost predicate PulledTo(g: Graph, g': Graph, live: set<nat>, or: bool, front: seq<nat>, mid: seq<nat>, pull: nat)
    requires |mid| > 0 && pull < |g| && mid[|mid| - 1] < |g| && (|front| > 0 ==> front[|front| - 1] < |g|)
  {
    var h, c := Relink(g, or, front, mid, pull), front + mid + [pull];
    && |g'| == |g|
    && forall y {:trigger g'[y]} :: 0 <= y < |g| ==>
         g'[y] == if y in live && y !in c then Retarget(g[y], c[0], (front + [pull] + mid)[0]) else h[y]
  }

  lemma ChainLevels(g: Graph, level: seq<int>, live: set<nat>, or: bool, front: seq<nat>, mid: seq<nat>, pull: nat,
                    t: nat, rest: nat)
    requires Found(g, level, live, or, front, mid, pull, t, rest)
    ensures HaveLevels(level, front + mid + [pull]) && Distinct(front + mid + [pull])
    ensures pull in live && (forall k :: 0 <= k < |mid| ==> mid[k] in live)
    ensures forall k :: 0 <= k < |front| ==> front[k] in live
  {
    var c := front + mid + [pull];
    assert forall k :: 0 <= k < |c| ==> c[k] in c;
    assert c[|front| + |mid|] == pull;
    assert forall k :: 0 <= k < |mid| ==> mid[k] == c[|front| + k];
    assert forall k :: 0 <= k < |front| ==> front[k] == c[k];
    ChainDistinct(g, level, or, c, t, rest);
  }

  lemma SameMembers(front: seq<nat>, mid: seq<nat>, pull: nat)
    ensures forall x :: x in front + mid + [pull] <==> x in front + [pull] + mid
  {
  }

  lemma ChainTransfers(h: Graph, g': Graph, or: bool, c: seq<nat>, t: nat, rest: nat)
    requires Chain(h, or, c, t, rest) && |g'| == |h| && forall k :: 0 <= k < |c| ==> c[k] < |h| && g'[c[k]] == h[c[k]]
    ensures Chain(g', or, c, t, rest)
  {
    forall k | 0 <= k < |c| ensures Link(g', or, c, t, rest, k) {
      assert Link(h, or, c, t, rest, k);
    }
  }

  /** Pulling a block up only reorders the tests of the chain. */
  lemma PullReorders(g: Graph, g': Graph, level: seq<int>, live: set<nat>, or: bool, front: seq<nat>, mid: seq<nat>,
                     pull: nat, t: nat, rest: nat)
    requires Found(g, level, live, or, front, mid, pull, t, rest)
    requires pull < |g| && mid[|mid| - 1] < |g| && (|front| > 0 ==> front[|front| - 1] < |g|)
    requires PulledTo(g, g', live, or, front, mid, pull)
    ensures Reordered(g, g', live, or, front + mid + [pull], front + [pull] + mid, t, rest)
  {
    ChainLevels(g, level, live, or, front, mid, pull, t, rest);
    SameMembers(front, mid, pull);
    NewChain(g, g', live, or, front, mid, pull, t, rest);
    PulledTests(g, g', live, or, front, mid, pull);
  }

  lemma NewChain(g: Graph, g': Graph, live: set<nat>, or: bool, front: seq<nat>, mid: seq<nat>, pull: nat, t: nat,
                 rest: nat)
    requires |mid| > 0 && Chain(g, or, front + mid + [pull], t, rest) && Distinct(front + mid + [pull])
    requires pull < |g| && mid[|mid| - 1] < |g| && (|front| > 0 ==> front[|front| - 1] < |g|)
    requires PulledTo(g, g', live, or, front, mid, pull)
    ensures Chain(g', or, front + [pull] + mid, t, rest)
  {
    var h, c, c' := Relink(g, or, front, mid, pull), front + mid + [pull], front + [pull] + mid;
    RelinkIsChain(g, or, front, mid, pull, t, rest);
    SameMembers(front, mid, pull);
    forall k | 0 <= k < |c'| ensures c'[k] < |h| && g'[c'[k]] == h[c'[k]] {
      assert Link(h, or, c', t, rest, k);
      assert c'[k] in c' && c'[k] in c;
    }
    ChainTransfers(h, g', or, c', t, rest);
  }

  lemma PulledTests(g: Graph, g': Graph, live: set<nat>, or: bool, front: seq<nat>, mid: seq<nat>, pull: nat)
    requires |mid| > 0 && pull < |g| && mid[|mid| - 1] < |g| && (|front| > 0 ==> front[|front| - 1] < |g|)
    requires PulledTo(g, g', live, or, front, mid, pull)
    ensures SameTests(g, g')
  {
    var h := Relink(g, or, front, mid, pull);
    forall b | 0 <= b < |g'| ensures g'[b].stmts == g[b].stmts && g'[b].s == g[b].s {
      assert h[b].stmts == g[b].stmts && h[b].s == g[b].s;
    }
  }

  /** The new levels `lv` fall at position `k` of the chain `c`. */
  predicate FallsAt(g: Graph, lv: seq<int>, live: set<nat>, c: seq<nat>, t: nat, rest: nat, k: nat)
    requires |lv| == |g| && k < |c|
  {
    && c[k] in live && c[k] < |g| && t < |g| && rest < |g| && 0 <= lv[t] < lv[c[k]]
    && (if k + 1 < |c| then c[k + 1] < |g| && lv[c[k + 1]] < lv[c[k]] else 0 <= lv[rest] < lv[c[k]])
  }

  lemma NewFrontFalls(g: Graph, level: seq<int>, live: set<nat>, or: bool, front: seq<nat>, mid: seq<nat>,
                      pull: nat, t: nat, rest: nat, k: nat)
    requires Found(g, level, live, or, front, mid, pull, t, rest) && k < |front| && pull < |g| && mid[0] < |g|
    ensures FallsAt(g, NewLevels(level, mid[0], pull), live, front + [pull] + mid, t, rest, k)
  {
    var c, c', f, m := front + mid + [pull], front + [pull] + mid, |front|, |mid|;
    ChainLevels(g, level, live, or, front, mid, pull, t, rest);
    TargetsOutside(g, level, or, c, t, rest);
    assert c[f + m] == pull && c[f] == mid[0] && c'[f] == pull && pull in c;
    assert Link(g, or, c, t, rest, f + m);
    assert c'[k] == c[k] && c[k] in c;
    ChainFalls(g, level, or, c, t, rest, k, f);
    ChainFalls(g, level, or, c, t, rest, k, f + m);
    if k + 1 < f {
      assert c'[k + 1] == c[k + 1] && c[k + 1] in c;
      ChainFalls(g, level, or, c, t, rest, k, k + 1);
    }
  }

  lemma NewRestFalls(g: Graph, level: seq<int>, live: set<nat>, or: bool, front: seq<nat>, mid: seq<nat>,
                     pull: nat, t: nat, rest: nat, k: nat)
    requires Found(g, level, live, or, front, mid, pull, t, rest) && |front| <= k <= |front| + |mid|
    requires pull < |g| && mid[0] < |g|
    ensures FallsAt(g, NewLevels(level, mid[0], pull), live, front + [pull] + mid, t, rest, k)
  {
    var c, c', f, m := front + mid + [pull], front + [pull] + mid, |front|, |mid|;
    ChainLevels(g, level, live, or, front, mid, pull, t, rest);
    TargetsOutside(g, level, or, c, t, rest);
    assert c[f + m] == pull && c[f] == mid[0] && c'[f] == pull && pull in c;
    assert Link(g, or, c, t, rest, f + m);
    ChainFalls(g, level, or, c, t, rest, f, f + m);
    if k == f {
      assert c'[k + 1] == mid[0] == c[f];
    } else {
      assert c'[k] == c[k - 1] && c[k - 1] in c;
      ChainFalls(g, level, or, c, t, rest, k - 1, f + m);
      if k < f + m {
        assert c'[k + 1] == c[k] && c[k] in c;
        ChainFalls(g, level, or, c, t, rest, k - 1, k);
      }
    }
  }

  /** The new levels fall along the new chain. */
  lemma NewChainFalls(g: Graph, level: seq<int>, live: set<nat>, or: bool, front: seq<nat>, mid: seq<nat>,
                      pull: nat, t: nat, rest: nat, k: nat)
    requires Found(g, level, live, or, front, mid, pull, t, rest) && k <= |front| + |mid| && pull < |g| && mid[0] < |g|
    ensures FallsAt(g, NewLevels(level, mid[0], pull), live, front + [pull] + mid, t, rest, k)
  {
    if k < |front| {
      NewFrontFalls(g, level, live, or, front, mid, pull, t, rest, k);
    } else {
      NewRestFalls(g, level, live, or, front, mid, pull, t, rest, k);
    }
  }

  predicate EdgesOk(g: Graph, lv: seq<int>, live: set<nat>, y: nat)
    requires |lv| == |g| && y < |g|
  {
    g[y].s.Jmp? ==>
      && g[y].jt < |g| && g[y].jf < |g| && g[y].jt in live && g[y].jf in live
      && 0 <= lv[g[y].jt] < lv[y] && 0 <= lv[g[y].jf] < lv[y]
  }

  lemma ChainEdgesOk(g: Graph, g': Graph, level: seq<int>, live: set<nat>, or: bool, front: seq<nat>, mid: seq<nat>,
                     pull: nat, t: nat, rest: nat, k: nat)
    requires Found(g, level, live, or, front, mid, pull, t, rest) && pull < |g| && mid[0] < |g|
    requires Reordered(g, g', live, or, front + mid + [pull], front + [pull] + mid, t, rest) && k <= |front| + |mid|
    ensures (front + [pull] + mid)[k] < |g|
    ensures EdgesOk(g', NewLevels(level, mid[0], pull), live, (front + [pull] + mid)[k])
  {
    var c' := front + [pull] + mid;
    NewChainFalls(g, level, live, or, front, mid, pull, t, rest, k);
    assert Link(g', or, c', t, rest, k);
    if k < |front| + |mid| {
      assert c'[k + 1] in c';
      NewChainFalls(g, level, live, or, front, mid, pull, t, rest, k + 1);
    }
  }

  lemma OtherEdgesOk(g: Graph, g': Graph, level: seq<int>, live: set<nat>, or: bool, front: seq<nat>, mid: seq<nat>,
                     pull: nat, t: nat, rest: nat, y: nat)
    requires Found(g, level, live, or, front, mid, pull, t, rest) && pull < |g| && mid[0] < |g|
    requires Reordered(g, g', live, or, front + mid + [pull], front + [pull] + mid, t, rest)
    requires y in live && y !in front + mid + [pull]
    ensures EdgesOk(g', NewLevels(level, mid[0], pull), live, y)
  {
    var c, c', f, m := front + mid + [pull], front + [pull] + mid, |front|, |mid|;
    assert g'[y] == Retarget(g[y], c[0], c'[0]);
    ChainLevels(g, level, live, or, front, mid, pull, t, rest);
    if f > 0 {
      assert c[0] == front[0] == c'[0];
    } else {
      assert c[0] == mid[0] && c'[0] == pull;
    }
    assert c[0] != pull && c[1..][f + m - 1] == pull && pull in c[1..] by { assert c[f + m] == pull; }
  }

  /** The graph stays acyclic, and no block becomes reachable. */
  lemma PulledLevels(g: Graph, g': Graph, level: seq<int>, live: set<nat>, or: bool, front: seq<nat>, mid: seq<nat>,
                     pull: nat, t: nat, rest: nat)
    requires Found(g, level, live, or, front, mid, pull, t, rest) && pull < |g| && mid[0] < |g|
    requires Reordered(g, g', live, or, front + mid + [pull], front + [pull] + mid, t, rest)
    ensures Leveled(g', NewLevels(level, mid[0], pull)) && SuccClosed(g', live)
    ensures forall b :: b in live ==> NewLevels(level, mid[0], pull)[b] >= 0
  {
    var lv := NewLevels(level, mid[0], pull);
    ChainLevels(g, level, live, or, front, mid, pull, t, rest);
    SameMembers(front, mid, pull);
    forall y | y in live ensures EdgesOk(g', lv, live, y) {
      if y in front + mid + [pull] {
        var k :| 0 <= k < |front + [pull] + mid| && (front + [pull] + mid)[k] == y;
        ChainEdgesOk(g, g', level, live, or, front, mid, pull, t, rest, k);
      } else {
        OtherEdgesOk(g, g', level, live, or, front, mid, pull, t, rest, y);
      }
    }
    forall y | 0 <= y < |g'| && lv[y] >= 0 && g'[y].s.Jmp?
      ensures g'[y].jt < |g'| && g'[y].jf < |g'| && 0 <= lv[g'[y].jt] < lv[y] && 0 <= lv[g'[y].jf] < lv[y]
    {
      assert y in live && EdgesOk(g', lv, live, y);
    }
    forall y | y in live && g'[y].s.Jmp? ensures g'[y].jt in live && g'[y].jf in live {
      assert EdgesOk(g', lv, live, y);
    }
  }

  /** The verdicts agree unless one of the runs aborts; and neither does where no block does. */
  ghost predicate VerdictKept(g: Graph, lv: seq<int>, g': Graph, lv': seq<int>, root: nat, live: set<nat>)
    requires Leveled(g, lv) && Leveled(g', lv') && root < |g| == |g'| && lv[root] >= 0 && lv'[root] >= 0
  {
    forall st: State, p: Packet ::
      || Run(g', lv', root, st, p) == Run(g, lv, root, st, p)
      || (SomeAbort(g, live, root, st, p) && (Run(g, lv, root, st, p) == Abort || Run(g', lv', root, st, p) == Abort))
  }

  /** Some live block aborts when entered as the root leaves the shared slots. */
  predicate SomeAbort(g: Graph, live: set<nat>, root: nat, st: State, p: Packet)
    requires root < |g|
  {
    ExecAll(g[root].stmts, st, p).Some? && !NoAborts(g, live, ExecAll(g[root].stmts, st, p).value, p)
  }

  lemma ReorderKeepsVerdict(g: Graph, g': Graph, root: nat, level: seq<int>, lv': seq<int>, live: set<nat>,
                            shared: set<Atom>, or: bool, chain: seq<nat>, chain': seq<nat>, t: nat, rest: nat)
    requires Leveled(g, level) && Leveled(g', lv') && SuccClosed(g', live)
    requires root in live && root !in chain
    requires forall b :: b in live ==> b < |g| == |g'| && 0 <= level[b] <= level[root] && 0 <= lv'[b] <= lv'[root]
    requires BlocksClosed(g, root, live, shared)
    requires Reordered(g, g', live, or, chain, chain', t, rest)
    ensures VerdictKept(g, level, g', lv', root, live)
  {
    SameTestsClosed(g, g', root, live, shared);
    assert g'[root].stmts == g[root].stmts;
    forall st: State, p: Packet
      ensures || Run(g', lv', root, st, p) == Run(g, level, root, st, p)
              || (&& SomeAbort(g, live, root, st, p)
                  && (Run(g, level, root, st, p) == Abort || Run(g', lv', root, st, p) == Abort))
    {
      if ExecAll(g[root].stmts, st, p).Some? {
        ReorderKeepsRun(g, g', root, level, lv', live, shared, or, chain, chain', t, rest, st, p);
      }
    }
  }

  lemma ReorderKeepsRun(g: Graph, g': Graph, root: nat, level: seq<int>, lv': seq<int>, live: set<nat>,
                        shared: set<Atom>, or: bool, chain: seq<nat>, chain': seq<nat>, t: nat, rest: nat,
                        st: State, p: Packet)
    requires Leveled(g, level) && Leveled(g', lv') && SuccClosed(g', live)
    requires root in live && root !in chain
    requires forall b :: b in live ==> b < |g| == |g'| && 0 <= level[b] <= level[root] && 0 <= lv'[b] <= lv'[root]
    requires BlocksClosed(g, root, live, shared) && BlocksClosed(g', root, live, shared)
    requires Reordered(g, g', live, or, chain, chain', t, rest)
    requires ExecAll(g[root].stmts, st, p).Some? && g'[root].stmts == g[root].stmts
    ensures || Run(g', lv', root, st, p) == Run(g, level, root, st, p)
            || (&& SomeAbort(g, live, root, st, p)
                && (Run(g, level, root, st, p) == Abort || Run(g', lv', root, st, p) == Abort))
  {
    var base := ExecAll(g[root].stmts, st, p).value;
    RunIsDecideFromRoot(g, level, root, live, shared, st, p);
    RunIsDecideFromRoot(g', lv', root, live, shared, st, p);
    if NoAborts(g, live, base, p) {
      NoAbortsDecide(g, level, live, root, base, p);
      assert NoAborts(g', live, base, p) by {
        forall b | b in live && b < |g'| ensures ExecAll(g'[b].stmts, base, p).Some? {
          assert g'[b].stmts == g[b].stmts && ExecAll(g[b].stmts, base, p).Some?;
        }
      }
      NoAbortsDecide(g', lv', live, root, base, p);
    }
    if Decide(g, level, root, base, p) != Abort && Decide(g', lv', root, base, p) != Abort {
      ReorderedDecide(g, g', level, lv', live, or, chain, chain', t, rest, root, base, p);
    }
  }

  /** The two walks of `or_pullup`, from `b` and on from `diff`, together. */
  lemma WalksJoin(g: Graph, level: seq<int>, or: bool, t: nat, b: nat, dom: seq<set<nat>>, val: seq<nat>, v: nat,
                  r1: seq<nat>, r2: seq<nat>)
    requires Leveled(g, level) && |dom| == |val| == |g| && b < |g| && level[b] >= 0
    requires |r1| > 0 && r1 == Walk(g, level, or, t, b, dom, val, v, false, b)
    requires |r2| > 0 && r1[|r1| - 1] < |g| && g[r1[|r1| - 1]].s.Jmp? && level[r1[|r1| - 1]] >= 0 &&
             r2 == Walk(g, level, or, t, b, dom, val, v, true, Along(g[r1[|r1| - 1]], or))
    ensures r2[|r2| - 1] < |g| && Chain(g, or, r1 + r2, t, Along(g[r2[|r2| - 1]], or)) && (r1 + r2)[0] == b
    ensures HaveLevels(level, r1 + r2)
    ensures forall k :: 0 <= k < |r1 + r2| ==> (r1 + r2)[k] < |g| && b in dom[(r1 + r2)[k]]
  {
    WalkIsChain(g, level, or, t, b, dom, val, v, false, b);
    WalkIsChain(g, level, or, t, b, dom, val, v, true, Along(g[r1[|r1| - 1]], or));
    ChainJoin(g, or, r1, r2, t, Along(g[r2[|r2| - 1]], or));
  }

  lemma EnteredAtHead(g: Graph, root: nat, level: seq<int>, levels: seq<seq<nat>>, live: set<nat>, dom: seq<set<nat>>,
                      or: bool, chain: seq<nat>, t: nat, rest: nat, y: nat, j: nat)
    requires Levelled(g, root, level, levels, live) && Leveled(g, level) && |dom| == |g|
    requires OnEveryPath(BlockRel(g), Only(root), live, dom)
    requires Chain(g, or, chain, t, rest) && HaveLevels(level, chain)
    requires forall k :: 0 <= k < |chain| ==> chain[k] < |g| && chain[0] in dom[chain[k]]
    requires y in live && y !in chain && 0 < j < |chain|
    ensures !BlockRel(g)(y, chain[j])
  {
    if BlockRel(g)(y, chain[j]) {
      assert chain[j] in live && OnAll(BlockRel(g), Only(root), chain[j], chain[0]);
      OnePredecessor(g, root, level, or, chain, t, rest, j, y);
      assert false;
    }
  }

  lemma OutsideEntersAtHead(g: Graph, root: nat, level: seq<int>, levels: seq<seq<nat>>, live: set<nat>,
                            dom: seq<set<nat>>, or: bool, chain: seq<nat>, t: nat, rest: nat, y: nat)
    requires Levelled(g, root, level, levels, live) && Leveled(g, level) && |dom| == |g|
    requires OnEveryPath(BlockRel(g), Only(root), live, dom)
    requires Chain(g, or, chain, t, rest) && HaveLevels(level, chain)
    requires forall k :: 0 <= k < |chain| ==> chain[k] < |g| && chain[0] in dom[chain[k]]
    requires y in live && y !in chain && g[y].s.Jmp?
    ensures g[y].jt !in chain[1..] && g[y].jf !in chain[1..]
  {
    if k :| 0 <= k < |chain[1..]| && (chain[1..][k] == g[y].jt || chain[1..][k] == g[y].jf) {
      assert chain[1..][k] == chain[k + 1];
      EnteredAtHead(g, root, level, levels, live, dom, or, chain, t, rest, y, k + 1);
      assert false;
    }
  }

  lemma ChainFound(g: Graph, root: nat, level: seq<int>, levels: seq<seq<nat>>, live: set<nat>, dom: seq<set<nat>>,
                   or: bool, b: nat, chain: seq<nat>, front: seq<nat>, mid: seq<nat>, pull: nat, t: nat, rest: nat)
    requires Levelled(g, root, level, levels, live) && Leveled(g, level) && |dom| == |g|
    requires OnEveryPath(BlockRel(g), Only(root), live, dom)
    requires Chain(g, or, chain, t, rest) && HaveLevels(level, chain) && chain[0] == b
    requires forall k :: 0 <= k < |chain| ==> chain[k] < |g| && b in dom[chain[k]]
    requires |mid| > 0 && chain == front + mid + [pull]
    ensures Found(g, level, live, or, front, mid, pull, t, rest)
  {
    forall y: nat | y in live && y !in chain && g[y].s.Jmp? ensures g[y].jt !in chain[1..] && g[y].jf !in chain[1..] {
      OutsideEntersAtHead(g, root, level, levels, live, dom, or, chain, t, rest, y);
    }
    forall x | x in chain ensures x in live {
      var k :| 0 <= k < |chain| && chain[k] == x;
    }
  }

  lemma SplitWalks(r1: seq<nat>, r2: seq<nat>)
    requires |r1| > 0 && |r2| > 0
    ensures r1 + r2 == r1[..|r1| - 1] + ([r1[|r1| - 1]] + r2[..|r2| - 1]) + [r2[|r2| - 1]]
  {
  }

  /** The two walks find a chain that can be reordered. */
  lemma WalksFind(g: Graph, root: nat, level: seq<int>, levels: seq<seq<nat>>, live: set<nat>, dom: seq<set<nat>>,
                  val: seq<nat>, v: nat, or: bool, b: nat, t: nat, r1: seq<nat>, r2: seq<nat>)
    requires Levelled(g, root, level, levels, live) && Leveled(g, level) && |dom| == |val| == |g|
    requires OnEveryPath(BlockRel(g), Only(root), live, dom)
    requires b in live && |r1| > 0 && r1 == Walk(g, level, or, t, b, dom, val, v, false, b)
    requires |r2| > 0 && r1[|r1| - 1] < |g| && g[r1[|r1| - 1]].s.Jmp? && level[r1[|r1| - 1]] >= 0 &&
             r2 == Walk(g, level, or, t, b, dom, val, v, true, Along(g[r1[|r1| - 1]], or))
    ensures r2[|r2| - 1] < |g| && (r1 + r2)[0] == b
    ensures Found(g, level, live, or, r1[..|r1| - 1], [r1[|r1| - 1]] + r2[..|r2| - 1], r2[|r2| - 1], t,
                  Along(g[r2[|r2| - 1]], or))
  {
    WalksJoin(g, level, or, t, b, dom, val, v, r1, r2);
    SplitWalks(r1, r2);
    ChainFound(g, root, level, levels, live, dom, or, b, r1 + r2, r1[..|r1| - 1], [r1[|r1| - 1]] + r2[..|r2| - 1],
               r2[|r2| - 1], t, Along(g[r2[|r2| - 1]], or));
  }

  /** All predecessors of a block leave A the same number. */
  method SameValue(preds: seq<nat>, val: seq<nat>) returns (same: bool)
    requires |preds| > 0 && forall k :: 0 <= k < |preds| ==> preds[k] < |val|
    ensures same <==> forall k :: 0 <= k < |preds| ==> val[preds[k]] == val[preds[0]]
  {
    for k := 1 to |preds|
      invariant forall j :: 0 <= j < k ==> val[preds[j]] == val[preds[0]]
    {
      if val[preds[k]] != val[preds[0]] {
        return false;
      }
    }
    return true;
  }

  /** Levels, dominators and predecessor lists are those of `g`. */
  ghost predicate Fresh(g: Graph, root: nat, level: seq<int>, levels: seq<seq<nat>>, dom: seq<set<nat>>,
                        ins: seq<seq<nat>>, live: set<nat>) {
    && Levelled(g, root, level, levels, live) && Leveled(g, level)
    && |dom| == |g| && OnEveryPath(BlockRel(g), Only(root), live, dom)
    && InEdges(g, live, ins)
  }

  /** The condition under which `or_pullup` acts on `b`, and the walks it makes. */
  ghost predicate Wanted(g: Graph, level: seq<int>, dom: seq<set<nat>>, preds: seq<nat>, val: seq<nat>, or: bool,
                         b: nat, r1: seq<nat>, r2: seq<nat>)
    requires Leveled(g, level) && |dom| == |val| == |g| && b < |g| && level[b] >= 0
    requires forall k :: 0 <= k < |preds| ==> preds[k] < |val|
  {
    && |preds| > 0 && (forall k :: 0 <= k < |preds| ==> val[preds[k]] == val[preds[0]])
    && r1 == Walk(g, level, or, Common(g[b], or), b, dom, val, val[preds[0]], false, b) && |r1| > 0
    && r1[|r1| - 1] < |g| && g[r1[|r1| - 1]].s.Jmp? && level[r1[|r1| - 1]] >= 0
    && r2 == Walk(g, level, or, Common(g[b], or), b, dom, val, val[preds[0]], true, Along(g[r1[|r1| - 1]], or))
    && |r2| > 0
  }

  lemma PredsOutside(g: Graph, level: seq<int>, live: set<nat>, or: bool, chain: seq<nat>, t: nat, rest: nat, q: nat)
    requires Leveled(g, level) && Chain(g, or, chain, t, rest) && HaveLevels(level, chain) && Are(level, live)
    requires q in live && BlockRel(g)(q, chain[0])
    ensures q !in chain
  {
    forall k | 0 <= k < |chain| ensures chain[k] != q {
      if k > 0 {
        ChainFalls(g, level, or, chain, t, rest, 0, k);
      }
    }
  }

  /** Relink the chain and turn the edges into it: the end of `or_pullup`. */
  method MoveUp(g: Graph, ghost level: seq<int>, ghost live: set<nat>, ins: seq<seq<nat>>, or: bool, b: nat,
                above: nat, diff: nat, below: nat, pull: nat, ghost front: seq<nat>, ghost mid: seq<nat>,
                ghost t: nat, ghost rest: nat)
    returns (g': Graph)
    requires Found(g, level, live, or, front, mid, pull, t, rest) && InEdges(g, live, ins) && b in live
    requires (front + mid)[0] == b
    requires diff == mid[0] && below == mid[|mid| - 1] && (diff == b <==> front == [])
    requires diff != b ==> above == front[|front| - 1]
    ensures pull in live && below in live && diff in live && (|front| > 0 ==> front[|front| - 1] < |g|)
    ensures PulledTo(g, g', live, or, front, mid, pull)
  {
    ChainLevels(g, level, live, or, front, mid, pull, t, rest);
    assert (front + mid + [pull])[0] == b && pull != b by {
      assert (front + mid + [pull])[|front| + |mid|] == pull;
    }
    var h := g[below := WithAlong(g[below], or, Along(g[pull], or))];
    h := h[pull := WithAlong(h[pull], or, diff)];
    if diff == b {
      assert h == Relink(g, or, front, mid, pull);
      PredsOf(g, h, level, live, ins, or, front, mid, pull, t, rest, b);
      g' := RetargetPreds(h, ins[b], b, pull);
      TopPulled(g, h, g', live, ins[b], or, front, mid, pull, b);
    } else {
      g' := h[above := WithAlong(h[above], or, pull)];
      assert g' == Relink(g, or, front, mid, pull);
      InsidePulled(g, level, live, or, front, mid, pull, t, rest);
    }
  }

  lemma PredsOf(g: Graph, h: Graph, level: seq<int>, live: set<nat>, ins: seq<seq<nat>>, or: bool, front: seq<nat>,
                mid: seq<nat>, pull: nat, t: nat, rest: nat, b: nat)
    requires Found(g, level, live, or, front, mid, pull, t, rest) && InEdges(g, live, ins) && b in live
    requires front == [] && mid[0] == b
    requires pull < |g| && mid[|mid| - 1] < |g| && h == Relink(g, or, front, mid, pull)
    ensures forall q :: q in ins[b] ==>
              q < |h| && h[q].s.Jmp? && multiset(ins[b])[q] == EdgesTo(h[q], b) && q in live
              && q !in front + mid + [pull] && h[q] == g[q]
    ensures forall q: nat :: q in live && q !in front + mid + [pull] ==>
              h[q] == g[q] && (q !in ins[b] && g[q].s.Jmp? ==> g[q].jt != b && g[q].jf != b)
  {
    var c := front + mid + [pull];
    ChainLevels(g, level, live, or, front, mid, pull, t, rest);
    RelinkAt(g, or, front, mid, pull);
    assert c[0] == b && pull in c && mid[|mid| - 1] in c;
    forall q | q in ins[b]
      ensures q < |h| && h[q].s.Jmp? && multiset(ins[b])[q] == EdgesTo(h[q], b) && q in live && q !in c && h[q] == g[q]
    {
      Predecessors(g, live, ins, b, q);
      PredsOutside(g, level, live, or, c, t, rest, q);
      assert multiset(ins[b])[q] == EdgeCount(g, live, q, b);
    }
    forall q: nat | q in live && q !in c && q !in ins[b] && g[q].s.Jmp? ensures g[q].jt != b && g[q].jf != b {
      Predecessors(g, live, ins, b, q);
    }
  }

  lemma TopPulled(g: Graph, h: Graph, g': Graph, live: set<nat>, preds: seq<nat>, or: bool, front: seq<nat>,
                  mid: seq<nat>, pull: nat, b: nat)
    requires front == [] && |mid| > 0 && mid[0] == b && pull < |g| && mid[|mid| - 1] < |g|
    requires h == Relink(g, or, front, mid, pull)
    requires |g'| == |g| && forall y :: 0 <= y < |h| ==> g'[y] == if y in preds then Retarget(h[y], b, pull) else h[y]
    requires forall q :: q in preds ==> q in live && q !in front + mid + [pull]
    requires forall q: nat :: q in live && q !in front + mid + [pull] ==>
               q < |g| && h[q] == g[q] && (q !in preds && g[q].s.Jmp? ==> g[q].jt != b && g[q].jf != b)
    ensures PulledTo(g, g', live, or, front, mid, pull)
  {
    assert (front + mid + [pull])[0] == b && (front + [pull] + mid)[0] == pull;
  }

  lemma InsidePulled(g: Graph, level: seq<int>, live: set<nat>, or: bool, front: seq<nat>, mid: seq<nat>, pull: nat,
                     t: nat, rest: nat)
    requires Found(g, level, live, or, front, mid, pull, t, rest) && |front| > 0
    requires pull < |g| && mid[|mid| - 1] < |g| && front[|front| - 1] < |g|
    ensures PulledTo(g, Relink(g, or, front, mid, pull), live, or, front, mid, pull)
  {
    var c := front + mid + [pull];
    ChainLevels(g, level, live, or, front, mid, pull, t, rest);
    RelinkAt(g, or, front, mid, pull);
    assert c[0] == (front + [pull] + mid)[0] == front[0];
    assert c[|front| - 1] == front[|front| - 1] && c[|front| + |mid| - 1] == mid[|mid| - 1]
      && c[|front| + |mid|] == pull;
  }

  lemma RootOutside(g: Graph, root: nat, level: seq<int>, levels: seq<seq<nat>>, live: set<nat>, or: bool,
                    chain: seq<nat>, t: nat, rest: nat, q: nat)
    requires Levelled(g, root, level, levels, live) && Leveled(g, level) && Chain(g, or, chain, t, rest)
    requires HaveLevels(level, chain)
    requires q in live && BlockRel(g)(q, chain[0])
    ensures forall k :: 0 <= k < |chain| ==> level[chain[k]] < level[root]
  {
    forall k | 0 <= k < |chain| ensures level[chain[k]] < level[root] {
      if k > 0 {
        ChainFalls(g, level, or, chain, t, rest, 0, k);
      }
    }
  }

  lemma PullTouches(g: Graph, g': Graph, level: seq<int>, live: set<nat>, or: bool, front: seq<nat>, mid: seq<nat>,
                    pull: nat, t: nat, rest: nat)
    requires Found(g, level, live, or, front, mid, pull, t, rest)
    requires pull < |g| && mid[|mid| - 1] < |g| && (|front| > 0 ==> front[|front| - 1] < |g|)
    requires PulledTo(g, g', live, or, front, mid, pull)
    ensures Untouched(g, g', live)
  {
    ChainLevels(g, level, live, or, front, mid, pull, t, rest);
  }

  /** Pulling a block up keeps the graph acyclic and its verdicts. */
  lemma PullCorrect(g: Graph, g': Graph, root: nat, level: seq<int>, levels: seq<seq<nat>>, live: set<nat>,
                    shared: set<Atom>, or: bool, front: seq<nat>, mid: seq<nat>, pull: nat, t: nat, rest: nat,
                    q: nat)
    requires Levelled(g, root, level, levels, live) && BlocksClosed(g, root, live, shared)
    requires Found(g, level, live, or, front, mid, pull, t, rest)
    requires pull < |g| && mid[0] < |g| && mid[|mid| - 1] < |g| && (|front| > 0 ==> front[|front| - 1] < |g|)
    requires PulledTo(g, g', live, or, front, mid, pull)
    requires q in live && BlockRel(g)(q, (front + mid + [pull])[0])
    ensures Leveled(g', NewLevels(level, mid[0], pull)) && NewLevels(level, mid[0], pull)[root] >= 0
    ensures SameTests(g, g') && SuccClosed(g', live) && Untouched(g, g', live)
    ensures VerdictKept(g, level, g', NewLevels(level, mid[0], pull), root, live)
  {
    var c := front + mid + [pull];
    PullTouches(g, g', level, live, or, front, mid, pull, t, rest);
    PullReorders(g, g', level, live, or, front, mid, pull, t, rest);
    PulledLevels(g, g', level, live, or, front, mid, pull, t, rest);
    ChainLevels(g, level, live, or, front, mid, pull, t, rest);
    RootOutside(g, root, level, levels, live, or, c, t, rest, q);
    assert c[|front|] == mid[0] && c[|front| + |mid|] == pull;
    ReorderKeepsVerdict(g, g', root, level, NewLevels(level, mid[0], pull), live, shared, or, c,
                        front + [pull] + mid, t, rest);
  }

  /** The search of `or_pullup`: the blocks whose edges will change. */
  method FindPull(g: Graph, ghost root: nat, level: seq<int>, ghost levels: seq<seq<nat>>, ghost live: set<nat>,
                  dom: seq<set<nat>>, preds: seq<nat>, val: seq<nat>, or: bool, b: nat)
    returns (found: bool, above: nat, diff: nat, below: nat, pull: nat, ghost r1: seq<nat>, ghost r2: seq<nat>)
    requires Leveled(g, level) && |dom| == |val| == |g| && b < |g| && level[b] >= 0
    requires forall k :: 0 <= k < |preds| ==> preds[k] < |val|
    ensures found ==> Wanted(g, level, dom, preds, val, or, b, r1, r2)
    ensures !found ==> forall r1, r2 :: !Wanted(g, level, dom, preds, val, or, b, r1, r2)
    ensures found ==>
              && diff == r1[|r1| - 1] && pull == r2[|r2| - 1] && r1[0] == b
              && (diff == b <==> |r1| == 1) && (diff != b ==> above == r1[|r1| - 2])
              && below == if |r2| == 1 then diff else r2[|r2| - 2]
  {
    found, above, diff, below, pull, r1, r2 := false, b, b, b, b, [], [];
    if preds == [] {
      return;
    }
    var same := SameValue(preds, val);
    if !same {
      return;
    }
    var t, v := Common(g[b], or), val[preds[0]];
    found, above, diff := FollowChain(g, level, or, t, b, dom, val, v, false, b);
    if !found {
      return;
    }
    r1 := Walk(g, level, or, t, b, dom, val, v, false, b);
    WalkIsChain(g, level, or, t, b, dom, val, v, false, b);
    assert Link(g, or, r1, t, Along(g[diff], or), |r1| - 1);
    found, below, pull, r2 := FindSame(g, level, or, t, b, dom, val, v, diff);
  }

  /** The second walk: from behind `diff` to the next block with the value. */
  method FindSame(g: Graph, level: seq<int>, or: bool, t: nat, b: nat, dom: seq<set<nat>>, val: seq<nat>, v: nat,
                  diff: nat)
    returns (found: bool, below: nat, pull: nat, ghost r2: seq<nat>)
    requires Leveled(g, level) && |dom| == |val| == |g| && diff < |g| && g[diff].s.Jmp? && level[diff] >= 0
    ensures r2 == Walk(g, level, or, t, b, dom, val, v, true, Along(g[diff], or)) && (found <==> |r2| > 0)
    ensures found ==> pull == r2[|r2| - 1] && below == if |r2| == 1 then diff else r2[|r2| - 2]
  {
    found, below, pull := FollowChain(g, level, or, t, b, dom, val, v, true, Along(g[diff], or));
    r2 := Walk(g, level, or, t, b, dom, val, v, true, Along(g[diff], or));
    if found {
      WalkIsChain(g, level, or, t, b, dom, val, v, true, Along(g[diff], or));
      if pull == Along(g[diff], or) {
        below := diff;
      }
    }
  }

  /** The outcome of a pull. */
  ghost predicate Pulled(g: Graph, g': Graph, root: nat, level: seq<int>, live: set<nat>, or: bool, front: seq<nat>,
                         mid: seq<nat>, pull: nat)
    requires Leveled(g, level) && root < |g| && level[root] >= 0
  {
    && |mid| > 0 && pull < |g| && mid[0] < |g| && mid[|mid| - 1] < |g| && (|front| > 0 ==> front[|front| - 1] < |g|)
    && PulledTo(g, g', live, or, front, mid, pull)
    && Leveled(g', NewLevels(level, mid[0], pull)) && NewLevels(level, mid[0], pull)[root] >= 0
    && SameTests(g, g') && SuccClosed(g', live) && Untouched(g, g', live)
    && VerdictKept(g, level, g', NewLevels(level, mid[0], pull), root, live)
  }

  method PullAt(g: Graph, ghost root: nat, ghost level: seq<int>, ghost levels: seq<seq<nat>>, ghost live: set<nat>,
                ghost shared: set<Atom>, ins: seq<seq<nat>>, or: bool, b: nat, above: nat, diff: nat, below: nat,
                pull: nat, ghost front: seq<nat>, ghost mid: seq<nat>, ghost t: nat, ghost rest: nat)
    returns (g': Graph)
    requires Levelled(g, root, level, levels, live) && BlocksClosed(g, root, live, shared) && InEdges(g, live, ins)
    requires Found(g, level, live, or, front, mid, pull, t, rest) && b in live && (front + mid)[0] == b && ins[b] != []
    requires diff == mid[0] && below == mid[|mid| - 1] && (diff == b <==> front == [])
    requires diff != b ==> above == front[|front| - 1]
    ensures Pulled(g, g', root, level, live, or, front, mid, pull)
  {
    g' := MoveUp(g, level, live, ins, or, b, above, diff, below, pull, front, mid, t, rest);
    Predecessors(g, live, ins, b, ins[b][0]);
    assert (front + mid + [pull])[0] == b;
    PullCorrect(g, g', root, level, levels, live, shared, or, front, mid, pull, t, rest, ins[b][0]);
  }

  /** The pull that the two walks ask for. */
  ghost predicate PulledBy(g: Graph, g': Graph, root: nat, level: seq<int>, live: set<nat>, or: bool, r1: seq<nat>,
                           r2: seq<nat>)
    requires Leveled(g, level) && root < |g| && level[root] >= 0
  {
    && |r1| > 0 && |r2| > 0
    && Pulled(g, g', root, level, live, or, r1[..|r1| - 1], [r1[|r1| - 1]] + r2[..|r2| - 1], r2[|r2| - 1])
  }

  method PullFound(g: Graph, ghost root: nat, ghost level: seq<int>, ghost levels: seq<seq<nat>>,
                   ghost live: set<nat>, ghost shared: set<Atom>, ghost dom: seq<set<nat>>, ins: seq<seq<nat>>,
                   ghost val: seq<nat>, or: bool, b: nat, above: nat, diff: nat, below: nat, pull: nat,
                   ghost r1: seq<nat>, ghost r2: seq<nat>)
    returns (g': Graph)
    requires Fresh(g, root, level, levels, dom, ins, live) && BlocksClosed(g, root, live, shared) && |val| == |g|
    requires b in live
    requires forall k :: 0 <= k < |ins[b]| ==> ins[b][k] < |val|
    requires Wanted(g, level, dom, ins[b], val, or, b, r1, r2)
    requires diff == r1[|r1| - 1] && pull == r2[|r2| - 1] && r1[0] == b
    requires (diff == b <==> |r1| == 1) && (diff != b ==> above == r1[|r1| - 2])
    requires below == if |r2| == 1 then diff else r2[|r2| - 2]
    ensures PulledBy(g, g', root, level, live, or, r1, r2)
  {
    ghost var front, mid := r1[..|r1| - 1], [r1[|r1| - 1]] + r2[..|r2| - 1];
    WalksFind(g, root, level, levels, live, dom, val, val[ins[b][0]], or, b, Common(g[b], or), r1, r2);
    g' := PullAt(g, root, level, levels, live, shared, ins, or, b, above, diff, below, pull, front, mid,
                 Common(g[b], or), Along(g[pull], or));
  }

  class Puller {
    const root: nat
    const level: seq<int>
    const levels: seq<seq<nat>>
    const dom: seq<set<nat>>
    const ins: seq<seq<nat>>
    /** A's value number on exit from each block. */
    const val: seq<nat>
    ghost const live: set<nat>
    ghost const shared: set<Atom>
    var g: Graph
    var done: bool

    constructor (g: Graph, root: nat, level: seq<int>, levels: seq<seq<nat>>, dom: seq<set<nat>>,
                 ins: seq<seq<nat>>, val: seq<nat>, ghost live: set<nat>, ghost shared: set<Atom>)
      ensures this.g == g && done && this.root == root && this.level == level && this.levels == levels
      ensures this.dom == dom
      ensures this.ins == ins && this.val == val && this.live == live && this.shared == shared
    {
      this.g, this.root, this.level, this.levels, this.dom, this.ins, this.val := g, root, level, levels, dom, ins, val;
      this.live, this.shared := live, shared;
      done := true;
    }

    /** `or_pullup` (`or`) and `and_pullup`: acts exactly when the predecessors agree and both walks
        succeed; then one block moves and the verdict is kept. */
    method Pull(b: nat, or: bool) returns (pulled: bool, ghost r1: seq<nat>, ghost r2: seq<nat>)
      requires Fresh(g, root, level, levels, dom, ins, live) && BlocksClosed(g, root, live, shared)
      requires |val| == |g| && b in live && g[b].s.Jmp?
      modifies this
      ensures forall k :: 0 <= k < |ins[b]| ==> ins[b][k] < |val|
      ensures pulled ==> Wanted(old(g), level, dom, ins[b], val, or, b, r1, r2)
      ensures !pulled ==> forall r1, r2 :: !Wanted(old(g), level, dom, ins[b], val, or, b, r1, r2)
      ensures !pulled ==> g == old(g) && done == old(done)
      ensures pulled ==> !done && PulledBy(old(g), g, root, level, live, or, r1, r2)
    {
      forall k | 0 <= k < |ins[b]| ensures ins[b][k] in live && BlockRel(g)(ins[b][k], b) {
        Predecessors(g, live, ins, b, ins[b][k]);
      }
      var above, diff, below, pull;
      pulled, above, diff, below, pull, r1, r2 := FindPull(g, root, level, levels, live, dom, ins[b], val, or, b);
      if pulled {
        g := PullFound(g, root, level, levels, live, shared, dom, ins, val, or, b, above, diff, below, pull, r1, r2);
        done := false;
      }
    }
  }
}
