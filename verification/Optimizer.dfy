/** Passes of the optimizer one after another, each on freshly computed analyses, and the compiler with
    those passes in it. */
module Optimizer {
  import opened Machine
  import opened Atoms
  import opened Paths
  import opened Levels
  import opened ClosedGraph
  import opened Allocation
  import opened Liveness
  import opened DeadStores
  import opened ValueNumbers
  import opened Numbering
  import opened NumberingPass
  import opened LocalNumbers
  import opened PeepholePass
  import opened Sweep
  import opened SweptClosed
  import opened EdgeMoves
  import opened BranchMoves
  import opened InternBlocks
  import opened Layout
  import opened Convert
  import F = FilterExpr
  import P = Backpatch

  /** Every block is self-contained, and none returns A. */
  predicate Generated(g: Graph) {
    forall b {:trigger g[b]} :: 0 <= b < |g| ==> Closed(g[b].stmts, g[b].s, {}) && !g[b].s.RetA?
  }

  predicate NoReturnA(g: Graph) {
    forall b {:trigger g[b]} :: 0 <= b < |g| ==> !g[b].s.RetA?
  }

  /** An acyclic graph with a root. */
  predicate Rooted(g: Graph, lv: seq<int>, root: nat) {
    Leveled(g, lv) && root < |g| && lv[root] >= 0 && WellFormed(g)
  }

  ghost function LiveBlocks(g: Graph, root: nat): set<nat> {
    Reachable(BlockRel(g), Only(root), |g|)
  }

  /** `g'` is what is left of `g`: no new live block, no block with more statements. */
  ghost predicate Remains(g: Graph, g': Graph, root: nat) {
    LeftOf(g, LiveBlocks(g, root), g', LiveBlocks(g', root))
  }

  /** `g'` gives the verdict of `g` wherever `g` does not abort. */
  ghost predicate KeepsVerdict(g: Graph, lv: seq<int>, g': Graph, lv': seq<int>, root: nat) {
    && Leveled(g, lv) && Leveled(g', lv') && root < |g| == |g'| && lv[root] >= 0 && lv'[root] >= 0
    && forall st: State, p: Packet :: Run(g, lv, root, st, p) != Abort ==>
      Run(g', lv', root, st, p) == Run(g, lv, root, st, p)
  }

  lemma KeepsVerdictTrans(g: Graph, lv: seq<int>, g1: Graph, lv1: seq<int>, g2: Graph, lv2: seq<int>, root: nat)
    requires KeepsVerdict(g, lv, g1, lv1, root) && KeepsVerdict(g1, lv1, g2, lv2, root)
    ensures KeepsVerdict(g, lv, g2, lv2, root)
  {
    forall st: State, p: Packet | Run(g, lv, root, st, p) != Abort
      ensures Run(g2, lv2, root, st, p) == Run(g, lv, root, st, p)
    {
      assert Run(g1, lv1, root, st, p) == Run(g, lv, root, st, p);
    }
  }

  lemma Relevelled(g: Graph, lv: seq<int>, lv': seq<int>, root: nat)
    requires Leveled(g, lv) && Leveled(g, lv') && root < |g| && lv[root] >= 0 && lv'[root] >= 0
    ensures KeepsVerdict(g, lv, g, lv', root)
  {
    forall st: State, p: Packet | Run(g, lv, root, st, p) != Abort
      ensures Run(g, lv', root, st, p) == Run(g, lv, root, st, p)
    {
      RunIgnoresLevels(g, lv, lv', root, st, p);
    }
  }

  /** A closed set with the root contains all that is reachable. */
  lemma LiveInside(g: Graph, root: nat, s: set<nat>)
    requires SuccClosed(g, s) && root in s
    ensures LiveBlocks(g, root) <= s
  {
    forall b | b in LiveBlocks(g, root) ensures b in s {
      var path :| Leads(BlockRel(g), Only(root), path, b);
      ReachedIsInside(BlockRel(g), Only(root), s, path, b);
    }
  }

  /** Two tests, the second behind the first, and two returns: all four blocks are live. */
  lemma TwoTestsLive(g: Graph)
    requires |g| == 4 && g[0].s.Jmp? && g[0].jt == 2 && g[0].jf == 1 && g[1].s.Jmp? && g[1].jt == 2 && g[1].jf == 3
    ensures LiveBlocks(g, 0) == {0, 1, 2, 3}
  {
    var rel, live := BlockRel(g), LiveBlocks(g, 0);
    LiveClosed(rel, Only(0), 4);
    assert 0 in live;
    assert rel(0, 1) && rel(0, 2) && rel(1, 3);
    forall b: nat | b in live ensures b in {0, 1, 2, 3} {
      assert b < 4;
    }
  }

  lemma ShorterRemains(g: Graph, g': Graph, root: nat, live: set<nat>)
    requires Shorter(g, g') && live == LiveBlocks(g, root) && root in live && SuccClosed(g', live)
    ensures Remains(g, g', root)
  {
    LiveInside(g', root, live);
  }

  lemma RemainsTrans(g: Graph, g1: Graph, g2: Graph, root: nat)
    requires Remains(g, g1, root) && Remains(g1, g2, root)
    ensures Remains(g, g2, root)
  {
    LeftOfTrans(g, LiveBlocks(g, root), g1, LiveBlocks(g1, root), g2, LiveBlocks(g2, root));
  }

  lemma GeneratedClosed(g: Graph, root: nat, live: set<nat>)
    requires Generated(g) && root < |g| && forall b :: b in live ==> b < |g|
    ensures BlocksClosed(g, root, live, {})
  {
    assert Closed(g[root].stmts, g[root].s, {});
    forall b | b in live && b != root ensures BlockClosed(g[b], {}) {
      assert Closed(g[b].stmts, g[b].s, {});
    }
  }

  lemma MovedStaysGenerated(g: Graph, h: Graph, level: seq<int>, live: set<nat>)
    requires WellFormed(g) && Moved(g, h, level, live) && forall b :: b in live ==> level[b] >= 0
    ensures WellFormed(h) && Shorter(g, h) && (Generated(g) ==> Generated(h))
  {
    forall b | 0 <= b < |h| && Generated(g) ensures Closed(h[b].stmts, h[b].s, {}) && !h[b].s.RetA? {
      assert Closed(g[b].stmts, g[b].s, {}) && !g[b].s.RetA?;
    }
    forall b | 0 <= b < |h| && h[b].s.Jmp? ensures h[b].jt < |h| && h[b].jf < |h| {
      if b !in live {
        assert h[b] == g[b];
      }
    }
  }

  /** `outUse` is the liveness of the live blocks of `g`. */
  predicate IsLiveness(g: Graph, lv: seq<int>, live: set<nat>, outUse: seq<AtomSet>) {
    && Leveled(g, lv) && |outUse| == |g|
    && forall b {:trigger outUse[b]} :: b in live && b < |g| ==> lv[b] >= 0 && outUse[b] == NeededAfter(g, lv, b)
  }

  lemma FoundLiveness(g: Graph, lv: seq<int>, live: set<nat>, inUse: seq<AtomSet>, outUse: seq<AtomSet>)
    requires Leveled(g, lv) && Solves(g, lv, inUse, outUse) && forall b :: b in live ==> b < |g| && lv[b] >= 0
    ensures IsLiveness(g, lv, live, outUse)
  {
    forall b | b in live ensures outUse[b] == NeededAfter(g, lv, b) {
      SolutionUnique(g, lv, inUse, outUse, b);
    }
  }

  /** What the branch moves went by. */
  datatype Moving = Moving(level: seq<int>, levels: seq<seq<nat>>, live: set<nat>, n: Numbers, edom: seq<set<nat>>,
                           outUse: seq<AtomSet>)

  /** `h` is `g` after `opt_j` on every edge: the analyses are those of `g`, only edges have moved, and none is left
      that could be moved further. */
  ghost predicate MovedBy(g: Graph, h: Graph, root: nat, m: Moving) {
    && Analysed(g, g, root, m.level, m.levels, m.live, {}, m.n, m.edom) && IsLiveness(g, m.level, m.live, m.outUse)
    && Moved(g, h, m.level, m.live) && AllUntold(h, m.live, m.n, m.outUse, m.edom)
  }

  /** Levels, edge dominators, liveness, numbers; then `opt_j` on every edge. */
  method MovePass(g: Graph, root: nat, ghost lv: seq<int>) returns (h: Graph, ghost lv': seq<int>, ghost m: Moving)
    requires Rooted(g, lv, root) && Generated(g)
    ensures WellFormed(h) && Generated(h) && SameTests(g, h) && KeepsVerdict(g, lv, h, lv', root)
    ensures Remains(g, h, root) && |m.n.tbl| <= Cost(g, LiveBlocks(g, root), |g|)
    ensures MovedBy(g, h, root, m)
  {
    var an := new Analysis(g, root, lv);
    an.FindLevels();
    an.FindEdom();
    var ud := new UseDef(g);
    Relevelled(g, lv, an.level, root);
    ud.FindUd(root, an.level, an.levels);
    GeneratedClosed(g, root, an.done);
    var ok, g1, n;
    ghost var failed;
    ok, g1, n, failed := OptBlks(g, root, an.level, an.levels, an.done, false);
    NeverFails(g, root, an.done, failed);
    UnalteredGraph(g, g1, root, an.done, n);
    ClosedIsNumbered(g, g1, root, an.level, an.levels, an.done, {}, n, false);
    FoundLiveness(g, an.level, an.done, ud.inUse, ud.outUse);
    var mover := new BranchMover(g, root, an.level, an.levels, n, an.edom, ud.outUse, an.done, {}, g1);
    mover.MoveBranches();
    h, lv', m := mover.h, an.level, Moving(an.level, an.levels, an.done, n, an.edom, ud.outUse);
    MovedStaysGenerated(g, h, an.level, an.done);
    ShorterRemains(g, h, root, an.done);
    assert KeepsVerdict(g, lv', h, lv', root);
    KeepsVerdictTrans(g, lv, g, lv', h, lv', root);
  }

  lemma SameShapeLeveled(g: Graph, h: Graph, lv: seq<int>)
    requires SameShape(g, h) && Leveled(g, lv)
    ensures Leveled(h, lv)
  {
    forall b | 0 <= b < |h| && lv[b] >= 0 && h[b].s.Jmp?
      ensures h[b].jt < |h| && h[b].jf < |h| && 0 <= lv[h[b].jt] < lv[b] && 0 <= lv[h[b].jf] < lv[b]
    {
      assert g[b].s == h[b].s && g[b].jt == h[b].jt && g[b].jf == h[b].jf;
    }
  }

  lemma SameShapeTidy(g: Graph, h: Graph, live: set<nat>)
    requires SameShape(g, h) && WellFormed(g) && SuccClosed(g, live)
    ensures WellFormed(h) && SuccClosed(h, live) && (NoReturnA(g) ==> NoReturnA(h))
  {
    forall b | 0 <= b < |h|
      ensures h[b].s == g[b].s && h[b].jt == g[b].jt && h[b].jf == g[b].jf
    {
      assert h[b] == g[b].(stmts := h[b].stmts);
    }
    forall b | 0 <= b < |h| && NoReturnA(g) ensures !h[b].s.RetA? {
      assert !g[b].s.RetA?;
    }
  }

  lemma RootHasNoPredecessor(g: Graph, root: nat, level: seq<int>, levels: seq<seq<nat>>, live: set<nat>)
    requires Levelled(g, root, level, levels, live)
    ensures forall q: nat :: q in live ==> !BlockRel(g)(q, root)
  {
    EdgesFall(g, level, levels, live);
  }

  /** `n` is a numbering of the live blocks of `g`, and `g1` is `g` as it rewrites them. */
  ghost predicate NumberingOf(g: Graph, g1: Graph, root: nat, n: Numbers, alter: bool) {
    var live := LiveBlocks(g, root);
    && Sized(g, n) && (forall b :: b in live ==> b < |g|) && Reshaped(g, g1, live)
    && NoKeyTwice(n.tbl) && |n.tbl| <= Cost(g, live, |g|)
    && (BlocksReadKnown(g, n, alter, live) ==> Proper(n.tbl))
    && forall b {:trigger SweptAt(g, g1, root, live, n, alter, b)} :: b in live ==>
         SweptAt(g, g1, root, live, n, alter, b)
  }

  /** The block aborts on every packet, in whatever state it is entered. */
  ghost predicate AlwaysAborts(ss: seq<Stmt>) {
    forall st: State, p: Packet :: ExecAll(ss, st, p).None?
  }

  lemma NumberingKeepsVerdict(g: Graph, h: Graph, root: nat, lv: seq<int>, level: seq<int>, levels: seq<seq<nat>>,
                              live: set<nat>, n: Numbers)
    requires Leveled(g, lv) && root < |g| && lv[root] >= 0 && Levelled(g, root, level, levels, live)
    requires Leveled(g, level) && Leveled(h, level)
    requires Numbered(g, h, root, live, n, true)
    ensures KeepsVerdict(g, lv, h, level, root)
  {
    RootHasNoPredecessor(g, root, level, levels, live);
    Relevelled(g, lv, level, root);
    forall st: State, p: Packet | Run(g, level, root, st, p) != Abort
      ensures Run(h, level, root, st, p) == Run(g, level, root, st, p)
    {
      NumberedRun(g, h, level, root, live, n, true, st, p);
    }
    KeepsVerdictTrans(g, lv, g, level, h, level, root);
  }

  /** Value numbering with rewriting, on any graph, one that the pass itself has rewritten included: the
      verdict is kept if no statement reads an atom numbered 0, and that is so for graphs of
      self-contained blocks.  On those it fails only at a block that always aborts. */
  method NumberPass(g: Graph, root: nat, ghost lv: seq<int>)
    returns (ok: bool, h: Graph, ghost lv': seq<int>, n: Numbers, ghost failed: nat)
    requires Rooted(g, lv, root)
    ensures ok ==> Rooted(h, lv', root) && (NoReturnA(g) ==> NoReturnA(h)) && Remains(g, h, root)
    ensures ok ==> NumberingOf(g, h, root, n, true)
    ensures ok && BlocksReadKnown(g, n, true, LiveBlocks(g, root)) ==> KeepsVerdict(g, lv, h, lv', root)
    ensures ok && Generated(g) ==> KeepsVerdict(g, lv, h, lv', root)
    ensures !ok ==> Fails(g, root, LiveBlocks(g, root), true, failed)
    ensures !ok && Generated(g) ==> failed < |g| && AlwaysAborts(g[failed].stmts)
  {
    var an := new Analysis(g, root, lv);
    an.FindLevels();
    ok, h, n, failed := OptBlks(g, root, an.level, an.levels, an.done, true);
    lv' := an.level;
    if Generated(g) {
      GeneratedClosed(g, root, an.done);
    }
    if ok {
      SameShapeTidy(g, h, an.done);
      SameShapeLeveled(g, h, lv');
      ShorterRemains(g, h, root, an.done);
      if Generated(g) {
        ClosedIsNumbered(g, h, root, an.level, an.levels, an.done, {}, n, true);
      }
      if BlocksReadKnown(g, n, true, an.done) {
        NumberingKeepsVerdict(g, h, root, lv, an.level, an.levels, an.done, n);
      }
    } else if Generated(g) {
      NumberingFailed(g, root, an.level, an.levels, an.done, true, failed);
    }
  }

  lemma EdgesWithinLeveled(g: Graph, h: Graph, lv: seq<int>, live: set<nat>)
    requires Leveled(g, lv) && SuccClosed(g, live) && WellFormed(g) && |h| == |g|
    requires forall b {:trigger h[b]} :: 0 <= b < |g| ==> EdgesWithin(g[b], h[b])
    ensures Leveled(h, lv) && SuccClosed(h, live) && WellFormed(h)
  {
    forall b | 0 <= b < |h| && lv[b] >= 0 && h[b].s.Jmp?
      ensures h[b].jt < |h| && h[b].jf < |h| && 0 <= lv[h[b].jt] < lv[b] && 0 <= lv[h[b].jf] < lv[b]
    {
      assert g[b].s.Jmp?;
    }
    forall b | 0 <= b < |h| && h[b].s.Jmp? ensures h[b].jt < |h| && h[b].jf < |h| {
      assert g[b].s.Jmp?;
    }
    forall b | b in live && h[b].s.Jmp? ensures h[b].jt in live && h[b].jf in live {
      assert g[b].s.Jmp?;
    }
  }

  lemma NoReturnACovered(g: Graph, lv: seq<int>)
    requires NoReturnA(g) && |lv| == |g|
    ensures ReturnsCovered(g, lv)
  {
    forall b | 0 <= b < |g| && lv[b] >= 0 ensures ReturnCovered(g[b]) {
      assert !g[b].s.RetA?;
    }
  }

  /** What a peephole pass needs to keep the verdict: nothing read unknown, X dead after constant-index
      sequences, returns covered. */
  ghost predicate Peepable(g: Graph, g1: Graph, level: seq<int>, live: set<nat>, n: Numbers, outUse: seq<AtomSet>) {
    && Sized(g, n) && (forall b :: b in live ==> b < |g|) && |level| == |g1|
    && BlocksReadKnown(g, n, true, live) && AllFreshX(g1, live, outUse) && ReturnsCovered(g1, level)
  }

  /** The verdict is kept wherever `g` does not abort and its tests of all bits find a bit. */
  ghost predicate KeepsVerdictButAllBits(g: Graph, lv: seq<int>, g1: Graph, h: Graph, g2: Graph, lv': seq<int>,
                                         outUse: seq<AtomSet>, root: nat) {
    && Leveled(g, lv) && Leveled(g1, lv') && Leveled(g2, lv') && root < |g| == |g1| == |h| == |g2| == |outUse|
    && lv[root] >= 0 && lv'[root] >= 0
    && forall st: State, p: Packet ::
         Run(g, lv, root, st, p) != Abort && SparesAllBits(g1, h, lv', outUse, root, st, p) ==>
           Run(g2, lv', root, st, p) == Run(g, lv, root, st, p)
  }

  lemma PeepingKeepsVerdict(g: Graph, g1: Graph, g2: Graph, root: nat, lv: seq<int>, level: seq<int>,
                            levels: seq<seq<nat>>, live: set<nat>, n: Numbers, inUse: seq<AtomSet>,
                            outUse: seq<AtomSet>)
    requires Leveled(g, lv) && root < |g| && lv[root] >= 0 && Levelled(g, root, level, levels, live)
    requires Leveled(g, level) && Leveled(g1, level) && Leveled(g2, level) && Numbered(g, g1, root, live, n, true)
    requires Solves(g1, level, inUse, outUse) && PeepedGraph(g1, g2, live, n, outUse)
    requires Peepable(g, g1, level, live, n, outUse)
    ensures KeepsVerdictButAllBits(g, lv, g1, g1, g2, level, outUse, root)
  {
    RootHasNoPredecessor(g, root, level, levels, live);
    forall st: State, p: Packet | Run(g, lv, root, st, p) != Abort && SparesAllBits(g1, g1, level, outUse, root, st, p)
      ensures Run(g2, level, root, st, p) == Run(g, lv, root, st, p)
    {
      RunIgnoresLevels(g, lv, level, root, st, p);
      assert NumberedWell(g, g1, root, live, n, true, root);
      PeepedRun(g, g1, g2, level, root, live, n, true, inUse, outUse, root, st, st, p);
    }
  }

  /** Levels and numbering with rewriting (`g1`), liveness of the result, then `opt_peep` on every live
      block (`g2`). */
  method PeepPass(g: Graph, root: nat, ghost lv: seq<int>)
    returns (ok: bool, g1: Graph, g2: Graph, ghost lv': seq<int>, n: Numbers, outUse: seq<AtomSet>,
             ghost failed: nat)
    requires Rooted(g, lv, root)
    ensures ok ==> Rooted(g2, lv', root) && Remains(g, g2, root)
    ensures ok ==> NumberingOf(g, g1, root, n, true) && IsLiveness(g1, lv', LiveBlocks(g, root), outUse)
    ensures ok ==> PeepedGraph(g1, g2, LiveBlocks(g, root), n, outUse) && Untouched(g1, g2, LiveBlocks(g, root))
    ensures !ok ==> Fails(g, root, LiveBlocks(g, root), true, failed)
    ensures ok && Peepable(g, g1, lv', LiveBlocks(g, root), n, outUse) ==>
              KeepsVerdictButAllBits(g, lv, g1, g1, g2, lv', outUse, root)
  {
    var an := new Analysis(g, root, lv);
    an.FindLevels();
    ok, g1, n, failed := OptBlks(g, root, an.level, an.levels, an.done, true);
    g2, lv', outUse := g1, an.level, [];
    if ok {
      SameShapeTidy(g, g1, an.done);
      SameShapeLeveled(g, g1, lv');
      SameShapeExact(g, g1, an.level, an.levels);
      var ud := new UseDef(g1);
      ud.FindUd(root, an.level, an.levels);
      outUse := ud.outUse;
      FoundLiveness(g1, lv', an.done, ud.inUse, outUse);
      g2 := PeepAll(g, g1, root, an.level, an.done, n, true, outUse);
      EdgesWithinLeveled(g1, g2, lv', an.done);
      ShorterTwice(g, g1, g2);
      ShorterRemains(g, g2, root, an.done);
      if Peepable(g, g1, lv', an.done, n, outUse) {
        PeepingKeepsVerdict(g, g1, g2, root, lv, an.level, an.levels, an.done, n, ud.inUse, outUse);
      }
    }
  }

  /** What a sweep needs to keep the verdict: no statement reads an atom numbered 0, X is dead after
      constant-index sequences, returns are constant and, if numbering rewrites, no block gives up an atom that
      matters after it in the numbered graph. */
  ghost predicate Sweepable(g: Graph, g1: Graph, lv: seq<int>, live: set<nat>, n: Numbers, alter: bool,
                            outUse: seq<AtomSet>) {
    && Sized(g, n) && (forall b :: b in live ==> b < |g|) && |g1| == |g| == |outUse|
    && BlocksReadKnown(g, n, alter, live) && AllFreshX(Middle(g1, n, alter, outUse), live, outUse)
    && ConstantReturns(g, live) && (alter ==> NothingLost(g1, lv, live, n, alter, outUse))
  }

  lemma SweepingKeepsVerdict(g: Graph, g1: Graph, m: Graph, g2: Graph, root: nat, lv: seq<int>, level: seq<int>,
                             levels: seq<seq<nat>>, live: set<nat>, n: Numbers, alter: bool, outUse: seq<AtomSet>)
    requires Leveled(g, lv) && root < |g| && lv[root] >= 0 && Levelled(g, root, level, levels, live)
    requires Swept(g, g1, m, g2, level, root, live, n, alter, outUse)
    ensures KeepsVerdictButAllBits(g, lv, g1, m, g2, level, outUse, root)
  {
    forall st: State, p: Packet | Run(g, lv, root, st, p) != Abort && SparesAllBits(g1, m, level, outUse, root, st, p)
      ensures Run(g2, level, root, st, p) == Run(g, lv, root, st, p)
    {
      RunIgnoresLevels(g, lv, level, root, st, p);
      assert NumberedWell(g, g1, root, live, n, alter, root);
      SweptRun(g, g1, m, g2, level, root, live, n, alter, outUse, root, st, st, p);
    }
  }

  lemma SweepableKeeps(g: Graph, g1: Graph, g2: Graph, root: nat, lv: seq<int>, level: seq<int>,
                       levels: seq<seq<nat>>, live: set<nat>, n: Numbers, alter: bool, inUse: seq<AtomSet>,
                       outUse: seq<AtomSet>)
    requires Leveled(g, lv) && root < |g| && lv[root] >= 0 && Levelled(g, root, level, levels, live)
    requires Leveled(g, level) && Leveled(g1, level) && Leveled(g2, level) && Solves(g, level, inUse, outUse)
    requires Sweepable(g, g1, level, live, n, alter, outUse) && SweptGraph(g1, g2, live, n, alter, outUse)
    requires Numbered(g, g1, root, live, n, alter) && SameShape(g, g1)
    ensures KeepsVerdictButAllBits(g, lv, g1, Middle(g1, n, alter, outUse), g2, level, outUse, root)
  {
    MiddleLeveled(g1, level, n, alter, outUse);
    if !alter {
      forall b | b in live ensures SweptAt(g, g1, root, live, n, alter, b) {
        assert NumberedWell(g, g1, root, live, n, alter, b);
      }
      UnalteredReads(g, g1, root, live, n, outUse);
      NoNewReadsSpares(g, g1, level, live, n, alter, inUse, outUse);
    }
    RootHasNoPredecessor(g, root, level, levels, live);
    SweepingKeepsVerdict(g, g1, Middle(g1, n, alter, outUse), g2, root, lv, level, levels, live, n, alter, outUse);
  }

  /** One turn of `opt_loop` over the statements: levels and liveness, then `opt_blk` on every live block.
      On a generated graph, without rewriting, it is enough that X is dead after constant-index sequences. */
  method SweepPass(g: Graph, root: nat, alter: bool, ghost lv: seq<int>)
    returns (ok: bool, g1: Graph, g2: Graph, ghost lv': seq<int>, n: Numbers, outUse: seq<AtomSet>, ghost failed: nat)
    requires Rooted(g, lv, root)
    ensures IsLiveness(g, lv', LiveBlocks(g, root), outUse)
    ensures ok ==> Leveled(g1, lv') && Rooted(g2, lv', root) && Remains(g, g2, root)
    ensures ok ==> NumberingOf(g, g1, root, n, alter) && (!alter ==> g1 == g)
    ensures ok ==> SweptGraph(g1, g2, LiveBlocks(g, root), n, alter, outUse) && Untouched(g1, g2, LiveBlocks(g, root))
    ensures ok && Generated(g) ==> Numbered(g, g1, root, LiveBlocks(g, root), n, alter)
    ensures ok && Sweepable(g, g1, lv', LiveBlocks(g, root), n, alter, outUse) ==>
              KeepsVerdictButAllBits(g, lv, g1, Middle(g1, n, alter, outUse), g2, lv', outUse, root)
    ensures ok && !alter && Generated(g) && AllFreshX(g1, LiveBlocks(g, root), outUse) ==>
              Sweepable(g, g1, lv', LiveBlocks(g, root), n, alter, outUse)
    ensures !alter ==> ok && (Generated(g) ==> Generated(g2))
    ensures !ok ==> Fails(g, root, LiveBlocks(g, root), alter, failed)
    ensures !ok && Generated(g) ==> failed < |g| && AlwaysAborts(g[failed].stmts)
  {
    var an := new Analysis(g, root, lv);
    an.FindLevels();
    var ud := new UseDef(g);
    ud.FindUd(root, an.level, an.levels);
    outUse := ud.outUse;
    ok, g1, n, failed := OptBlks(g, root, an.level, an.levels, an.done, alter);
    g2, lv' := g1, an.level;
    FoundLiveness(g, lv', an.done, ud.inUse, outUse);
    NeverFails(g, root, an.done, failed);
    if ok {
      SameShapeTidy(g, g1, an.done);
      SameShapeLeveled(g, g1, lv');
      g2 := FinishAll(g, g1, root, an.level, an.done, n, alter, outUse);
      EdgesWithinLeveled(g1, g2, lv', an.done);
      ShorterTwice(g, g1, g2);
      ShorterRemains(g, g2, root, an.done);
      GeneratedSweep(g, g1, g2, root, an.level, an.levels, an.done, n, alter, outUse);
      if Sweepable(g, g1, lv', an.done, n, alter, outUse) {
        SweepableKeeps(g, g1, g2, root, lv, an.level, an.levels, an.done, n, alter, ud.inUse, outUse);
      }
    } else if Generated(g) {
      GeneratedClosed(g, root, an.done);
      NumberingFailed(g, root, an.level, an.levels, an.done, alter, failed);
    }
  }

  /** What a sweep makes of a generated graph; without rewriting it leaves the graph generated, and it is enough that
      X is dead after constant-index sequences. */
  lemma GeneratedSweep(g: Graph, g1: Graph, g2: Graph, root: nat, level: seq<int>, levels: seq<seq<nat>>,
                       live: set<nat>, n: Numbers, alter: bool, outUse: seq<AtomSet>)
    requires Levelled(g, root, level, levels, live) && root < |g| && Reshaped(g, g1, live) && Sized(g, n)
    requires forall b {:trigger SweptAt(g, g1, root, live, n, alter, b)} :: b in live ==>
               SweptAt(g, g1, root, live, n, alter, b)
    requires BlocksReadKnown(g, n, alter, live) ==> Numbered(g, g1, root, live, n, alter)
    requires SweptGraph(g1, g2, live, n, alter, outUse) && Untouched(g1, g2, live) && Leveled(g1, level)
    ensures !alter ==> g1 == g
    ensures Generated(g) ==> Numbered(g, g1, root, live, n, alter)
    ensures Generated(g) && !alter ==> Generated(g2)
    ensures Generated(g) && !alter && AllFreshX(g1, live, outUse) ==>
              Sweepable(g, g1, level, live, n, alter, outUse)
  {
    MiddleLeveled(g1, level, n, alter, outUse);
    if !alter {
      UnalteredGraph(g, g1, root, live, n);
    }
    if Generated(g) {
      GeneratedClosed(g, root, live);
      ClosedIsNumbered(g, g1, root, level, levels, live, {}, n, alter);
      if !alter {
        SweptStaysGenerated(g, g1, g2, root, live, n, outUse);
      }
    }
  }

  /** A sweep without rewriting leaves generated graphs generated. */
  lemma SweptStaysGenerated(g: Graph, g1: Graph, g2: Graph, root: nat, live: set<nat>, n: Numbers, outUse: seq<AtomSet>)
    requires Generated(g) && Reshaped(g, g1, live) && Sized(g, n) && (forall b :: b in live ==> b < |g|)
    requires SweptGraph(g1, g2, live, n, false, outUse) && Untouched(g1, g2, live)
    requires forall b {:trigger SweptAt(g, g1, root, live, n, false, b)} :: b in live ==>
               SweptAt(g, g1, root, live, n, false, b)
    ensures Generated(g2)
  {
    forall b | 0 <= b < |g2| ensures Closed(g2[b].stmts, g2[b].s, {}) && !g2[b].s.RetA? {
      assert Closed(g[b].stmts, g[b].s, {}) && !g[b].s.RetA?;
      if b in live {
        assert SweptAt(g, g1, root, live, n, false, b) && FinishedAt(g1, g2, n, false, outUse, b);
        Unaltered(VState(n.starts[b], n.entry[b]), g[b].stmts);
        FinishedClosed(g1[b], g2[b], outUse[b], ConstantAt(n, b, A_ATOM), ConstantAt(n, b, X_ATOM));
      } else {
        assert g2[b] == g1[b] && g1[b] == g[b];
      }
    }
  }

  /** A pass that fails on a generated graph has found a block that aborts on every packet. */
  lemma NumberingFailed(g: Graph, root: nat, level: seq<int>, levels: seq<seq<nat>>, live: set<nat>, alter: bool,
                        failed: nat)
    requires Levelled(g, root, level, levels, live) && BlocksClosed(g, root, live, {})
    requires Fails(g, root, live, alter, failed)
    ensures failed < |g| && AlwaysAborts(g[failed].stmts)
  {
    forall st: State, p: Packet ensures failed in live && ExecAll(g[failed].stmts, st, p).None? {
      FailedBlockAborts(g, root, level, levels, live, alter, failed, st, p);
    }
    FailedBlockAborts(g, root, level, levels, live, alter, failed, F.ZeroState, LongPacket());
  }

  lemma ShorterTwice(g: Graph, g1: Graph, g2: Graph)
    requires Shorter(g, g1) && Shorter(g1, g2)
    ensures Shorter(g, g2)
  {
    forall b | 0 <= b < |g| ensures |Compact(g2[b].stmts)| <= |Compact(g[b].stmts)| {
      assert |Compact(g1[b].stmts)| <= |Compact(g[b].stmts)|;
    }
  }

  /** Exactly the dead stores of every block are deleted. */
  ghost predicate AllCleaned(g: Graph, h: Graph, outUse: seq<AtomSet>) {
    |g| == |h| == |outUse| && forall i {:trigger h[i]} :: 0 <= i < |g| ==> CleanedBlock(g[i], h[i], outUse[i])
  }

  /** `opt_deadstores` on every block, against liveness computed for all of them. */
  method CleanAll(g: Graph, outUse: seq<AtomSet>) returns (h: Graph)
    requires |outUse| == |g|
    ensures Cleaned(g, h, outUse) && SameShape(g, h) && Shorter(g, h) && AllCleaned(g, h, outUse)
  {
    h := [];
    for b := 0 to |g|
      invariant |h| == b
      invariant forall i {:trigger h[i]} :: 0 <= i < b ==>
                  h[i] == g[i].(stmts := h[i].stmts) && Keeps(g[i].stmts, h[i].stmts, outUse[i] + BranchUse(g[i].s))
      invariant forall i {:trigger h[i]} :: 0 <= i < b ==> |Compact(h[i].stmts)| <= |Compact(g[i].stmts)|
      invariant forall i {:trigger h[i]} :: 0 <= i < b ==> CleanedBlock(g[i], h[i], outUse[i])
    {
      var ss := OptDeadstores(g[b].stmts, g[b].s, outUse[b]);
      DeletingShortens(g[b].stmts, ss);
      h := h + [g[b].(stmts := ss)];
    }
  }

  method DeadStorePass(g: Graph, root: nat, ghost lv: seq<int>)
    returns (h: Graph, ghost lv': seq<int>, ghost outUse: seq<AtomSet>)
    requires Rooted(g, lv, root) && NoReturnA(g)
    ensures IsLiveness(g, lv', LiveBlocks(g, root), outUse) && AllCleaned(g, h, outUse)
    ensures WellFormed(h) && Remains(g, h, root) && KeepsVerdict(g, lv, h, lv', root) && Ranked(h, lv')
  {
    var an := new Analysis(g, root, lv);
    an.FindLevels();
    lv' := an.level;
    var ud := new UseDef(g);
    ud.FindUd(root, an.level, an.levels);
    outUse := ud.outUse;
    FoundLiveness(g, lv', an.done, ud.inUse, outUse);
    h := CleanAll(g, ud.outUse);
    SameShapeTidy(g, h, an.done);
    SameShapeLeveled(g, h, lv');
    ShorterRemains(g, h, root, an.done);
    Relevelled(g, lv, lv', root);
    NoReturnACovered(g, lv');
    forall st: State, p: Packet | Run(g, lv', root, st, p) != Abort
      ensures Run(h, lv', root, st, p) == Run(g, lv', root, st, p)
    {
      CleanedRun(g, h, lv', ud.inUse, ud.outUse, root, st, st, p);
    }
    KeepsVerdictTrans(g, lv, g, lv', h, lv', root);
    SameShapeExact(g, h, an.level, an.levels);
  }

  lemma SameShapeExact(g: Graph, h: Graph, level: seq<int>, levels: seq<seq<nat>>)
    requires SameShape(g, h) && LevelInv(g, level, levels) && WellFormed(h)
    ensures LevelInv(h, level, levels) && Ranked(h, level)
  {
    forall b: nat | b < |h| && level[b] >= 0 ensures ExactLevel(h, level, b) {
      assert ExactLevel(g, level, b) && h[b] == g[b].(stmts := h[b].stmts);
    }
    forall l | 0 <= l < |levels| ensures ListOk(h, level, levels[l], l) {
      assert ListOk(g, level, levels[l], l);
    }
  }

  /** Move branches, number and rewrite, delete dead stores, merge equal blocks.  Both numberings stay below
      what is allocated for the first graph. */
  method Optimize(g: Graph, root: nat, ghost lv: seq<int>)
    returns (ok: bool, h: Graph, ghost lv': seq<int>, ghost used: seq<nat>, ghost failed: nat)
    requires Rooted(g, lv, root) && Generated(g)
    ensures ok ==> KeepsVerdict(g, lv, h, lv', root)
    ensures ok ==> AllDistinct(h, root)
    ensures ok ==> |used| == 2 && forall i :: 0 <= i < 2 ==> used[i] < MaxVal(g, LiveBlocks(g, root), |g|)
    ensures !ok ==> failed < |g| && AlwaysAborts(g[failed].stmts)
  {
    var g1, g2, g3, n;
    ghost var lv1, lv2, m, outUse;
    g1, lv1, m := MovePass(g, root, lv);
    ok, g2, lv2, n, failed := NumberPass(g1, root, lv1);
    if !ok {
      assert g1[failed].stmts == g[failed].stmts;
      return false, g, lv, [], failed;
    }
    used := [|m.n.tbl|, |n.tbl|];
    RootIsLive(g, root);
    RootIsLive(g1, root);
    NeverOverrun(g, LiveBlocks(g, root), g, LiveBlocks(g, root), |m.n.tbl|, root);
    NeverOverrun(g, LiveBlocks(g, root), g1, LiveBlocks(g1, root), |n.tbl|, root);
    GeneratedReturns(g1);
    g3, lv', outUse := DeadStorePass(g2, root, lv2);
    KeepsVerdictTrans(g, lv, g1, lv1, g2, lv2, root);
    KeepsVerdictTrans(g, lv, g2, lv2, g3, lv', root);
    h := InternBlocks.InternBlocks(g3, root, lv');
    assert KeepsVerdict(g3, lv', h, lv', root);
    KeepsVerdictTrans(g, lv, g3, lv', h, lv', root);
  }

  lemma RootIsLive(g: Graph, root: nat)
    requires root < |g|
    ensures root in LiveBlocks(g, root)
  {
    assert Leads(BlockRel(g), Only(root), [root], root);
  }

  lemma GeneratedReturns(g: Graph)
    requires Generated(g)
    ensures NoReturnA(g)
  {
    forall b | 0 <= b < |g| ensures !g[b].s.RetA? {
      assert Closed(g[b].stmts, g[b].s, {}) && !g[b].s.RetA?;
    }
  }

  lemma FinishedGenerated(bs: seq<P.Cell>, e: F.Expr, snaplen: Word)
    requires P.Finished(bs, e, 0, snaplen) && F.Proper(e)
    ensures WellFormed(P.ToGraph(bs)) && Generated(P.ToGraph(bs))
  {
    var g := P.ToGraph(bs);
    forall b | 0 <= b < |g|
      ensures Closed(g[b].stmts, g[b].s, {}) && !g[b].s.RetA? && (g[b].s.Jmp? ==> g[b].jt < |g| && g[b].jf < |g|)
    {
      P.FinishedBlock(bs, e, 0, snaplen, b);
    }
  }

  /** Some test of the expression aborts on every packet. */
  ghost predicate HopelessTest(e: F.Expr) {
    match e
    case Leaf(t) => AlwaysAborts(t.stmts)
    case Not(e1) => HopelessTest(e1)
    case Conj(l, r) => HopelessTest(l) || HopelessTest(r)
    case Disj(l, r) => HopelessTest(l) || HopelessTest(r)
  }

  lemma {:induction false} HopelessFrom(e: F.Expr, lo: nat, i: nat)
    requires lo <= i < lo + F.Span(e) && AlwaysAborts(F.TestAt(e, lo, i).stmts)
    ensures HopelessTest(e)
  {
    match e
    case Leaf(_) =>
    case Not(e1) => HopelessFrom(e1, lo, i);
    case Conj(l, r) => if i < lo + F.Span(l) { HopelessFrom(l, lo, i); } else { HopelessFrom(r, lo + F.Span(l), i); }
    case Disj(l, r) => if i < lo + F.Span(l) { HopelessFrom(l, lo, i); } else { HopelessFrom(r, lo + F.Span(l), i); }
  }

  lemma HopelessOf(g: Graph, e: F.Expr, snaplen: Word, b: nat)
    requires P.FinishedGraph(g, e, 0, F.Span(e), snaplen) && b < |g| && AlwaysAborts(g[b].stmts)
    ensures HopelessTest(e)
  {
    assert ExecAll([], F.ZeroState, LongPacket()).Some?;
    assert ExecAll(g[b].stmts, F.ZeroState, LongPacket()).None?;
    assert F.Places(g[b], F.TestAt(e, 0, b), F.ExitsAt(e, 0, b, F.To(F.Span(e)), F.To(F.Span(e) + 1)));
    HopelessFrom(e, 0, b);
  }

  /** The optimizing compiler: it fails only on an expression with a test that aborts on every packet (a
      division by a constant zero), and whenever no test of the expression aborts, the emitted array returns
      `snaplen` if the expression is true of the packet and 0 if it is false. */
  method CompileOptimized(e: F.Expr, snaplen: Word) returns (ok: bool, code: seq<Insn>)
    requires F.Proper(e)
    ensures !ok ==> HopelessTest(e)
    ensures ok ==> forall st: State, p: Packet :: F.Eval(e, p).Some? ==>
                     RunArray(code, 0, st, p) == Return(if F.Eval(e, p).value then snaplen else 0)
  {
    var gen := new P.Generator();
    var b := gen.Compile(e);
    var root := gen.FinishParse(b, snaplen, e, 0);
    ghost var bs := gen.blocks;
    var g := P.ToGraph(gen.blocks);
    ghost var lv := P.ByIndex(|g|, 0);
    P.FinishedShape(bs, e, 0, snaplen);
    FinishedGenerated(bs, e, snaplen);
    var h;
    ghost var lv', used, failed;
    ok, h, lv', used, failed := Optimize(g, root, lv);
    code := [];
    if !ok {
      HopelessOf(g, e, snaplen, failed);
    } else {
      var conv := new Converter(h, lv');
      code := conv.IcodeToFcode(root);
      forall st: State, p: Packet | F.Eval(e, p).Some?
        ensures RunArray(code, 0, st, p) == Return(if F.Eval(e, p).value then snaplen else 0)
      {
        P.FilterCorrect(bs, e, 0, snaplen, st, p);
        assert Run(h, lv', root, st, p) == Run(g, lv, root, st, p);
      }
    }
  }
}
