/** `opt_j`: moving an edge past a block whose test is already decided (`fold_edge`, `use_conflict`). */
module BranchMoves {
  import opened Collections
  import opened Machine
  import opened Paths
  import opened Levels
  import opened ClosedGraph
  import opened ValueNumbers
  import opened Numbering
  import opened NumberingPass
  import opened BranchTests
  import opened EdgeMoves

  /** `fold_edge`: where block `child` must go, given that edge `k` was taken to get there. */
  function FoldEdge(h: Graph, n: Numbers, child: nat, k: nat): Option<nat>
    requires Sized(h, n) && child < |h| && k < 2 * |h|
  {
    var c, q, sense := h[child], h[Pred(|h|, k)], k < |h|;
    if !(c.s.Jmp? && q.s.Jmp? && c.s.jop == q.s.jop && c.s.src == q.s.src) then None
    else if n.exit[child][A_ATOM] != n.exit[Pred(|h|, k)][A_ATOM] then None
    else if n.oval[child] == n.oval[Pred(|h|, k)] then Some(if sense then c.jt else c.jf)
    else if sense && c.s.jop.Jeq? && c.s.src.FromK? then Some(c.jf)
    else None
  }

  /** The answer is right: if edge `k` was taken, the child's test goes that way. */
  lemma FoldEdgeRight(g: Graph, h: Graph, n: Numbers, child: nat, k: nat, base: State, p: Packet)
    requires Sized(h, n) && child < |h| && k < 2 * |h| && SameTests(g, h) && Proper(n.tbl)
    requires g[child].s.Jmp? && TestExplained(g, n, child, base, p) && OperandAt(g, n, child)
    requires Selected(g, k, base, p) && TestExplained(g, n, Pred(|g|, k), base, p) && OperandAt(g, n, Pred(|g|, k))
    requires FoldEdge(h, n, child, k).Some?
    ensures StepOf(h[child], base, p) in {Goto(FoldEdge(h, n, child, k).value), Stop(Abort)}
  {
    var q := Pred(|g|, k);
    assert h[child].s == g[child].s && h[q].s == g[q].s && h[child].stmts == g[child].stmts;
    match ExecAll(g[child].stmts, base, p)
    case None =>
    case Some(st) =>
      var st' := ExecAll(g[q].stmts, base, p).value;
      assert st[A_ATOM] == st'[A_ATOM];
      if n.oval[child] == n.oval[q] {
        assert Operand(g[child].s, st) == Operand(g[q].s, st');
      } else {
        assert g[child].s.k != g[q].s.k;
      }
  }

  /** Block `c` makes the test of block `q` again: same relation, same number in A, same operand. */
  predicate Repeats(h: Graph, n: Numbers, q: nat, c: nat)
    requires Sized(h, n) && q < |h| && c < |h|
  {
    && h[q].s.Jmp? && h[c].s.Jmp? && h[c].s.jop == h[q].s.jop && h[c].s.src == h[q].s.src
    && n.exit[c][A_ATOM] == n.exit[q][A_ATOM]
    && if h[c].s.src.FromK? then h[c].s.k == h[q].s.k else n.exit[c][X_ATOM] == n.exit[q][X_ATOM]
  }

  /** Both compare the same number in A with a constant for equality. */
  predicate BothJeq(h: Graph, n: Numbers, q: nat, c: nat)
    requires Sized(h, n) && q < |h| && c < |h|
  {
    && h[q].s.Jmp? && h[q].s.jop.Jeq? && h[q].s.src.FromK? && h[c].s.Jmp? && h[c].s.jop.Jeq? && h[c].s.src.FromK?
    && n.exit[c][A_ATOM] == n.exit[q][A_ATOM]
  }

  /** Equal constants have equal numbers. */
  lemma SameOperand(h: Graph, n: Numbers, q: nat, c: nat)
    requires Sized(h, n) && q < |h| && c < |h| && NoKeyTwice(n.tbl) && OperandAt(h, n, q) && OperandAt(h, n, c)
    requires h[q].s.Jmp? && h[c].s.Jmp? && h[c].s.src == h[q].s.src
    ensures n.oval[c] == n.oval[q] <==>
              if h[c].s.src.FromK? then h[c].s.k == h[q].s.k else n.exit[c][X_ATOM] == n.exit[q][X_ATOM]
  {
    if h[c].s.src.FromK? {
      assert n.tbl[n.oval[c] - 1] == KImm(h[c].s.k) && n.tbl[n.oval[q] - 1] == KImm(h[q].s.k);
    }
  }

  /** What is offered: the branch taken before if the test is repeated, the false one after a different constant was
      found, and nothing else. */
  lemma FoldEdgeIs(h: Graph, n: Numbers, child: nat, k: nat)
    requires Sized(h, n) && child < |h| && k < 2 * |h| && NoKeyTwice(n.tbl)
    requires OperandAt(h, n, child) && OperandAt(h, n, Pred(|h|, k))
    ensures var q := Pred(|h|, k);
            FoldEdge(h, n, child, k) ==
            if Repeats(h, n, q, child) then Some(if k < |h| then h[child].jt else h[child].jf)
            else if BothJeq(h, n, q, child) && k < |h| then Some(h[child].jf)
            else None
  {
    if h[child].s.Jmp? && h[Pred(|h|, k)].s.Jmp? && h[child].s.src == h[Pred(|h|, k)].s.src {
      SameOperand(h, n, Pred(|h|, k), child);
    }
  }

  /** A word other than these two. */
  lemma ThirdWord(v: Word, w: Word) returns (u: Word)
    ensures u != v && u != w
  {
    u := if v != 0 && w != 0 then 0 else if v != 1 && w != 1 then 1 else 2;
  }

  /** A value of A with which edge `k`, out of the test for `k0`, is taken and the test for `k1` goes `way`. */
  predicate Goes(sense: bool, k0: Word, k1: Word, a: Word, way: bool) {
    (a == k0) == sense && (a == k1) == way
  }

  /** Between two tests of one number for constants, a refusal is forced: nothing is offered exactly when the edge can
      be taken with values of A that go either way at the child; and what is offered is where all of them go. */
  lemma FoldEdgeExact(h: Graph, n: Numbers, child: nat, k: nat, sense: bool, k0: Word, k1: Word)
    requires Sized(h, n) && child < |h| && k < 2 * |h| && NoKeyTwice(n.tbl)
    requires OperandAt(h, n, child) && OperandAt(h, n, Pred(|h|, k)) && BothJeq(h, n, Pred(|h|, k), child)
    requires sense == (k < |h|) && k0 == h[Pred(|h|, k)].s.k && k1 == h[child].s.k
    ensures FoldEdge(h, n, child, k) == None <==>
              (exists a: Word :: Goes(sense, k0, k1, a, true)) && (exists a: Word :: Goes(sense, k0, k1, a, false))
    ensures forall a: Word, way: bool :: FoldEdge(h, n, child, k).Some? && Goes(sense, k0, k1, a, way) ==>
              FoldEdge(h, n, child, k).value == if way then h[child].jt else h[child].jf
  {
    FoldEdgeIs(h, n, child, k);
    if !sense && k0 != k1 {
      var u := ThirdWord(k0, k1);
      assert Goes(false, k0, k1, k1, true) && Goes(false, k0, k1, u, false);
    }
  }

  /** What a move needs: the block the edge leads to branches to `d` either way, or some edge on every
      path to this one decides its test in favour of `d`. */
  predicate Justified(h: Graph, n: Numbers, edom: seq<set<nat>>, e: nat, d: nat) {
    && Sized(h, n) && e < |edom| == 2 * |h| && Succ(h, e) < |h|
    && var c := Succ(h, e);
       || (h[c].s.Jmp? && h[c].jt == h[c].jf == d)
       || exists k :: 0 <= k < 2 * |h| && k in edom[e] && FoldEdge(h, n, c, k) == Some(d)
  }

  /** Edge `e` leaves `b`, a live test, and the blocks above it still have their own edges. */
  predicate Open(g: Graph, h: Graph, level: seq<int>, live: set<nat>, e: nat, b: nat) {
    && e < 2 * |g| && b < |g| == |level| && b == Pred(|g|, e)
    && b in live && g[b].s.Jmp? && SameAbove(g, h, level, level[b])
  }

  /** Freshly computed analyses of `g`: levels, numbers and edge dominators. */
  ghost predicate Analysed(g: Graph, g1: Graph, root: nat, level: seq<int>, levels: seq<seq<nat>>, live: set<nat>,
                           shared: set<Atom>, n: Numbers, edom: seq<set<nat>>) {
    && Levelled(g, root, level, levels, live)
    && BlocksClosed(g, root, live, shared)
    && Numbered(g, g1, root, live, n, false)
    && (forall b {:trigger SharedAt(g, root, shared, n, b)} :: b in live ==> SharedAt(g, root, shared, n, b))
    && |edom| == 2 * |g| && OnEveryPath(EdgeRel(g), EdgesOf(|g|, root), LiveEdges(g, root), edom)
  }

  /** An edge dominator was taken by every run that gets to the edge. */
  lemma DominatorTaken(g: Graph, root: nat, level: seq<int>, levels: seq<seq<nat>>, live: set<nat>, edom: seq<set<nat>>,
                       path: seq<nat>, e: nat, k: nat, base: State, p: Packet)
    requires Levelled(g, root, level, levels, live) && |edom| == 2 * |g|
    requires OnEveryPath(EdgeRel(g), EdgesOf(|g|, root), LiveEdges(g, root), edom)
    requires Travelled(g, root, path, e, base, p) && k < 2 * |g| && k in edom[e]
    ensures Pred(|g|, k) in live && Selected(g, k, base, p)
  {
    var rel, entry := EdgeRel(g), EdgesOf(|g|, root);
    EdgeOrder(g, root, level, levels, live);
    LiveClosed(rel, entry, 2 * |g|);
    ReachedIsInside(rel, entry, LiveEdges(g, root), path, e);
    assert OnAll(rel, entry, e, k);
    assert k in path;
    EdgeLiveness(g, root, level, levels, live);
  }

  lemma JustifiedIsForced(g: Graph, g1: Graph, h: Graph, root: nat, level: seq<int>, levels: seq<seq<nat>>,
                          live: set<nat>, shared: set<Atom>, n: Numbers, edom: seq<set<nat>>, e: nat, d: nat,
                          st: State, p: Packet)
    requires Analysed(g, g1, root, level, levels, live, shared, n, edom) && SameTests(g, h)
    requires e < 2 * |h| && Succ(h, e) in live && Justified(h, n, edom, e, d)
    requires ExecAll(g[root].stmts, st, p).Some?
    ensures Forced(g, h, root, e, d, ExecAll(g[root].stmts, st, p).value, p)
  {
    var base, c := ExecAll(g[root].stmts, st, p).value, Succ(h, e);
    if !(h[c].s.Jmp? && h[c].jt == h[c].jf == d) {
      var k :| 0 <= k < 2 * |h| && k in edom[e] && FoldEdge(h, n, c, k) == Some(d);
      forall path | Travelled(g, root, path, e, base, p) ensures StepOf(h[c], base, p) in {Goto(d), Stop(Abort)} {
        DominatorTaken(g, root, level, levels, live, edom, path, e, k, base, p);
        assert h[c].s == g[c].s;
        assert SharedAt(g, root, shared, n, c) && SharedAt(g, root, shared, n, Pred(|g|, k));
        TestsExplained(g, g1, root, live, shared, n, st, p, c);
        TestsExplained(g, g1, root, live, shared, n, st, p, Pred(|g|, k));
        assert NumberedWell(g, g1, root, live, n, false, c);
        assert NumberedWell(g, g1, root, live, n, false, Pred(|g|, k));
        FoldEdgeRight(g, h, n, c, k, base, p);
      }
    }
  }

  predicate SameElsewhere(g: Graph, h: Graph, live: set<nat>)
    requires |h| == |g|
  {
    forall b {:trigger h[b]} :: 0 <= b < |h| && b !in live ==> h[b] == g[b]
  }

  /** `h` is `g` with edges moved: the same tests, and edges that still fall and stay inside `live`. */
  predicate Moved(g: Graph, h: Graph, level: seq<int>, live: set<nat>) {
    SameTests(g, h) && Leveled(h, level) && SuccClosed(h, live) && SameElsewhere(g, h, live)
  }

  /** `h` gives the verdict of `g` wherever `g` does not abort. */
  ghost predicate SameVerdict(g: Graph, h: Graph, level: seq<int>, root: nat)
    requires Leveled(g, level) && Leveled(h, level) && root < |g| && level[root] >= 0
  {
    forall st: State, p: Packet :: Run(g, level, root, st, p) != Abort ==>
      Run(h, level, root, st, p) == Run(g, level, root, st, p)
  }

  lemma MovedRun(g: Graph, h: Graph, root: nat, level: seq<int>, levels: seq<seq<nat>>, live: set<nat>,
                 shared: set<Atom>, st: State, p: Packet)
    requires Levelled(g, root, level, levels, live) && BlocksClosed(g, root, live, shared) && Moved(g, h, level, live)
    requires ExecAll(g[root].stmts, st, p).Some?
    ensures Run(h, level, root, st, p) == Decide(h, level, root, ExecAll(g[root].stmts, st, p).value, p)
  {
    assert h[root].stmts == g[root].stmts && h[root].s == g[root].s;
    SameTestsClosed(g, h, root, live, shared);
    RunIsDecideFromRoot(h, level, root, live, shared, st, p);
  }

  /** A justified move of an edge below which everything may already have moved, but above which nothing
      has, keeps the verdict. */
  lemma MoveKeepsVerdict(g: Graph, g1: Graph, h: Graph, root: nat, level: seq<int>, levels: seq<seq<nat>>,
                         live: set<nat>, shared: set<Atom>, n: Numbers, edom: seq<set<nat>>, e: nat, d: nat,
                         b: nat)
    requires Analysed(g, g1, root, level, levels, live, shared, n, edom) && Moved(g, h, level, live)
    requires Leveled(g, level)
    requires Open(g, h, level, live, e, b)
    requires Justified(h, n, edom, e, d) && Moved(g, Redirect(h, e, d), level, live)
    requires SameVerdict(g, h, level, root)
    ensures SameVerdict(g, Redirect(h, e, d), level, root)
  {
    var h' := Redirect(h, e, d);
    assert h[Pred(|h|, e)].s == g[Pred(|h|, e)].s;
    forall st: State, p: Packet | Run(g, level, root, st, p) != Abort
      ensures Run(h', level, root, st, p) == Run(g, level, root, st, p)
    {
      MovedRun(g, h, root, level, levels, live, shared, st, p);
      MovedRun(g, h', root, level, levels, live, shared, st, p);
      var base := ExecAll(g[root].stmts, st, p).value;
      JustifiedIsForced(g, g1, h, root, level, levels, live, shared, n, edom, e, d, st, p);
      RedirectWalk(g, h, level, root, e, d, [], root, base, p);
    }
  }

  lemma RedirectLeveled(h: Graph, level: seq<int>, e: nat, d: nat)
    requires Leveled(h, level) && e < 2 * |h| && d < |h| && 0 <= level[d] < level[Pred(|h|, e)]
    ensures Leveled(Redirect(h, e, d), level)
  {
    var h', c := Redirect(h, e, d), Pred(|h|, e);
    forall b | 0 <= b < |h'| && level[b] >= 0 && h'[b].s.Jmp?
      ensures h'[b].jt < |h'| && h'[b].jf < |h'| && 0 <= level[h'[b].jt] < level[b] && 0 <= level[h'[b].jf] < level[b]
    {
      assert h[b].s.Jmp?;
    }
  }

  lemma RedirectInside(h: Graph, live: set<nat>, e: nat, d: nat)
    requires SuccClosed(h, live) && e < 2 * |h| && d in live
    ensures SuccClosed(Redirect(h, e, d), live)
  {
    var h' := Redirect(h, e, d);
    forall b | b in live && h'[b].s.Jmp? ensures h'[b].jt in live && h'[b].jf in live {
      assert h[b].s.Jmp?;
    }
  }

  /** An edge may be moved from a branching block to any block it branches to. */
  lemma RedirectMoved(g: Graph, h: Graph, level: seq<int>, live: set<nat>, e: nat, d: nat)
    requires Moved(g, h, level, live) && e < 2 * |h| && Pred(|h|, e) in live && h[Pred(|h|, e)].s.Jmp?
    requires d in live && 0 <= level[d] < level[Pred(|h|, e)]
    ensures Moved(g, Redirect(h, e, d), level, live)
  {
    RedirectLeveled(h, level, e, d);
    RedirectInside(h, live, e, d);
  }

  /** What `fold_edge` or a common target offers lies below the block the edge leads to. */
  lemma JustifiedFalls(h: Graph, level: seq<int>, live: set<nat>, n: Numbers, edom: seq<set<nat>>, e: nat, d: nat)
    requires Leveled(h, level) && SuccClosed(h, live) && (forall b :: b in live ==> level[b] >= 0)
    requires Sized(h, n) && e < 2 * |h| && Succ(h, e) in live && Justified(h, n, edom, e, d)
    ensures d in live && 0 <= level[d] < level[Succ(h, e)]
  {
    var c := Succ(h, e);
    assert h[c].s.Jmp?;
  }

  lemma RedirectAbove(g: Graph, h: Graph, level: seq<int>, e: nat, d: nat)
    requires |h| == |g| == |level| && e < 2 * |h| && SameAbove(g, h, level, level[Pred(|h|, e)])
    ensures SameAbove(g, Redirect(h, e, d), level, level[Pred(|h|, e)])
    ensures Succ(Redirect(h, e, d), e) == d
  {
  }

  lemma StepDown(g: Graph, h: Graph, level: seq<int>, live: set<nat>, n: Numbers, edom: seq<set<nat>>, e: nat, d: nat,
                 b: nat)
    requires Moved(g, h, level, live) && Sized(h, n) && (forall b :: b in live ==> level[b] >= 0)
    requires Open(g, h, level, live, e, b)
    requires Succ(h, e) < |h| && Justified(h, n, edom, e, d)
    ensures var h' := Redirect(h, e, d);
            && Moved(g, h', level, live) && Open(g, h', level, live, e, b)
            && d in live && Succ(h', e) == d && level[d] < level[Succ(h, e)]
  {
    assert h[Pred(|h|, e)].s == g[Pred(|h|, e)].s;
    JustifiedFalls(h, level, live, n, edom, e, d);
    RedirectMoved(g, h, level, live, e, d);
    RedirectAbove(g, h, level, e, d);
  }

  /** Some atom live out of `succ` leaves the two blocks with different numbers. */
  predicate Conflict(exit: seq<Vals>, outUse: seq<set<Atom>>, b: nat, succ: nat)
    requires b < |exit| && succ < |exit| == |outUse|
  {
    exists a: Atom :: a in outUse[succ] && exit[b][a] != exit[succ][a]
  }

  /** Edge `k` does not decide the test after edge `e`, or decides it in favour of a block that conflicts. */
  predicate Declined(h: Graph, n: Numbers, outUse: seq<set<Atom>>, e: nat, k: nat) {
    && Sized(h, n) && |outUse| == |h| && e < 2 * |h| && Succ(h, e) < |h| && k < 2 * |h|
    && match FoldEdge(h, n, Succ(h, e), k)
       case None => true
       case Some(d) => d < |h| && Conflict(n.exit, outUse, Pred(|h|, e), d)
  }

  /** No edge dominator decides the test after edge `e`, unless in favour of a block that conflicts. */
  predicate Settled(h: Graph, n: Numbers, outUse: seq<set<Atom>>, edom: seq<set<nat>>, e: nat) {
    e < |edom| && forall k :: 0 <= k < 2 * |h| && k in edom[e] ==> Declined(h, n, outUse, e, k)
  }

  /** Edge `e` has gone as far as it will go. */
  predicate Final(h: Graph, n: Numbers, outUse: seq<set<Atom>>, edom: seq<set<nat>>, e: nat) {
    e < 2 * |h| && Succ(h, e) < |h| && (h[Succ(h, e)].s.Jmp? ==> Settled(h, n, outUse, edom, e))
  }

  /** So have both edges of block `b`. */
  predicate BothFinal(h: Graph, n: Numbers, outUse: seq<set<Atom>>, edom: seq<set<nat>>, b: nat) {
    Final(h, n, outUse, edom, b) && Final(h, n, outUse, edom, |h| + b)
  }

  /** And all edges of live blocks. */
  predicate AllFinal(h: Graph, live: set<nat>, n: Numbers, outUse: seq<set<Atom>>, edom: seq<set<nat>>) {
    forall b {:trigger BothFinal(h, n, outUse, edom, b)} :: b in live && b < |h| && h[b].s.Jmp? ==>
      BothFinal(h, n, outUse, edom, b)
  }

  /** Edge `k`, on every path to edge `e`, does not tell how the test after `e` goes, unless in favour of a block that
      conflicts: that test does not repeat the one before `k`, and if `k` says that A is a constant it does not ask for
      another. */
  predicate Untold(h: Graph, n: Numbers, outUse: seq<set<Atom>>, e: nat, k: nat) {
    && Sized(h, n) && |outUse| == |h| && e < 2 * |h| && Succ(h, e) < |h| && k < 2 * |h|
    && var b, c, q := Pred(|h|, e), Succ(h, e), Pred(|h|, k);
       && (Repeats(h, n, q, c) ==>
             var d := if k < |h| then h[c].jt else h[c].jf; d < |h| && Conflict(n.exit, outUse, b, d))
       && (BothJeq(h, n, q, c) && h[c].s.k != h[q].s.k && k < |h| ==>
             h[c].jf < |h| && Conflict(n.exit, outUse, b, h[c].jf))
  }

  /** Edge `e` leaves a live test, and `k` is on every path to it: an edge dominator, or `e` itself. */
  predicate Told(h: Graph, live: set<nat>, edom: seq<set<nat>>, e: nat, k: nat) {
    && e < 2 * |h| == |edom| && Pred(|h|, e) in live && Pred(|h|, e) < |h| && h[Pred(|h|, e)].s.Jmp?
    && k < 2 * |h| && (k in edom[e] || k == e)
  }

  /** No test after an edge out of a live block is told by an edge on every path to it. */
  predicate AllUntold(h: Graph, live: set<nat>, n: Numbers, outUse: seq<set<Atom>>, edom: seq<set<nat>>) {
    |edom| == 2 * |h| && forall e, k :: 0 <= e < 2 * |h| && 0 <= k < 2 * |h| && Told(h, live, edom, e, k) ==>
      Untold(h, n, outUse, e, k)
  }

  lemma SettledIsUntold(h: Graph, n: Numbers, outUse: seq<set<Atom>>, edom: seq<set<nat>>, e: nat, k: nat)
    requires Final(h, n, outUse, edom, e) && Sized(h, n) && |outUse| == |h| && NoKeyTwice(n.tbl)
    requires k < 2 * |h| && e < |edom| && k in edom[e]
    requires OperandAt(h, n, Succ(h, e)) && OperandAt(h, n, Pred(|h|, k))
    ensures Untold(h, n, outUse, e, k)
  {
    FoldEdgeIs(h, n, Succ(h, e), k);
    if h[Succ(h, e)].s.Jmp? {
      assert Declined(h, n, outUse, e, k);
    }
  }

  /** A live edge is on every path that ends with it. */
  lemma OnItsOwnPaths(g: Graph, root: nat, level: seq<int>, levels: seq<seq<nat>>, live: set<nat>, edom: seq<set<nat>>,
                      e: nat)
    requires Levelled(g, root, level, levels, live) && |edom| == 2 * |g|
    requires OnEveryPath(EdgeRel(g), EdgesOf(|g|, root), LiveEdges(g, root), edom)
    requires e < 2 * |g| && Pred(|g|, e) in live
    ensures e in edom[e] && forall k :: k in edom[e] ==> k < 2 * |g| && Pred(|g|, k) in live
  {
    EdgeLiveness(g, root, level, levels, live);
    var rel, entry := EdgeRel(g), EdgesOf(|g|, root);
    assert OnAll(rel, entry, e, e);
    EdgeOrder(g, root, level, levels, live);
    LiveClosed(rel, entry, 2 * |g|);
    assert e in LiveEdges(g, root);
    forall k | k in edom[e] ensures k < 2 * |g| && Pred(|g|, k) in live {
      var path :| Leads(rel, entry, path, e);
      ReachedIsInside(rel, entry, LiveEdges(g, root), path, e);
      assert OnAll(rel, entry, e, k);
      assert k in path;
    }
  }

  predicate OperandsKept(h: Graph, live: set<nat>, n: Numbers)
    requires Sized(h, n)
  {
    forall b {:trigger OperandAt(h, n, b)} :: b in live ==> b < |h| && OperandAt(h, n, b)
  }

  lemma EdgeUntold(h: Graph, live: set<nat>, n: Numbers, outUse: seq<set<Atom>>, edom: seq<set<nat>>, e: nat, k: nat)
    requires Sized(h, n) && |outUse| == |h| && NoKeyTwice(n.tbl) && SuccClosed(h, live) && OperandsKept(h, live, n)
    requires Told(h, live, edom, e, k) && BothFinal(h, n, outUse, edom, Pred(|h|, e))
    requires k in edom[e] && Pred(|h|, k) in live
    ensures Untold(h, n, outUse, e, k)
  {
    assert OperandAt(h, n, Succ(h, e)) && OperandAt(h, n, Pred(|h|, k));
    SettledIsUntold(h, n, outUse, edom, e, k);
  }

  lemma FinalIsUntold(g: Graph, h: Graph, g1: Graph, root: nat, level: seq<int>, levels: seq<seq<nat>>, live: set<nat>,
                      shared: set<Atom>, n: Numbers, outUse: seq<set<Atom>>, edom: seq<set<nat>>)
    requires Analysed(g, g1, root, level, levels, live, shared, n, edom) && Moved(g, h, level, live)
    requires |outUse| == |g| && AllFinal(h, live, n, outUse, edom)
    ensures AllUntold(h, live, n, outUse, edom)
  {
    forall b | b in live ensures b < |h| && OperandAt(h, n, b) {
      OperandKept(g, g1, h, root, live, n, b);
    }
    forall e, k | 0 <= e < 2 * |h| && 0 <= k < 2 * |h| && Told(h, live, edom, e, k)
      ensures Untold(h, n, outUse, e, k)
    {
      assert BothFinal(h, n, outUse, edom, Pred(|h|, e));
      OnItsOwnPaths(g, root, level, levels, live, edom, e);
      EdgeUntold(h, live, n, outUse, edom, e, k);
    }
  }

  lemma OperandKept(g: Graph, g1: Graph, h: Graph, root: nat, live: set<nat>, n: Numbers, b: nat)
    requires Numbered(g, g1, root, live, n, false) && SameTests(g, h) && b in live
    ensures b < |h| && OperandAt(h, n, b)
  {
    assert NumberedWell(g, g1, root, live, n, false, b);
    assert h[b].s == g[b].s;
  }

  /** The test after edge `e` goes to one block either way, and nothing conflicts with going there at once. */
  predicate Idle(h: Graph, n: Numbers, outUse: seq<set<Atom>>, e: nat)
    requires Sized(h, n) && |outUse| == |h| && e < 2 * |h|
  {
    && Succ(h, e) < |h| && h[Succ(h, e)].s.Jmp? && h[Succ(h, e)].jt == h[Succ(h, e)].jf < |h|
    && !Conflict(n.exit, outUse, Pred(|h|, e), h[Succ(h, e)].jt)
  }

  /** Blocks other than `b` are as they were, and so is the test of `b`. */
  predicate OnlyEdgesOf(h: Graph, h': Graph, b: nat) {
    |h'| == |h| && b < |h| && h'[b].s == h[b].s && forall c :: 0 <= c < |h| && c != b ==> h'[c] == h[c]
  }

  /** `h'` is `h` up to where edge `e` leads. */
  predicate Along(h: Graph, h': Graph, e: nat) {
    && e < 2 * |h| && OnlyEdgesOf(h, h', Pred(|h|, e)) && h'[Pred(|h|, e)].stmts == h[Pred(|h|, e)].stmts
    && if e < |h| then h'[e].jf == h[e].jf else h'[e - |h|].jt == h[e - |h|].jt
  }

  lemma AlongMore(h: Graph, h1: Graph, h': Graph, e: nat, d: nat)
    requires Along(h, h1, e) && h' == Redirect(h1, e, d)
    ensures Along(h, h', e)
  {
  }

  lemma AlongNone(h: Graph, e: nat)
    requires e < 2 * |h|
    ensures Along(h, h, e)
  {
  }

  lemma AlongTwice(h: Graph, h1: Graph, h': Graph, e: nat)
    requires Along(h, h1, e) && Along(h1, h', e)
    ensures Along(h, h', e)
  {
  }

  /** Both edges of a block, one after the other. */
  lemma AlongBoth(h: Graph, h1: Graph, h': Graph, n: Numbers, outUse: seq<set<Atom>>, edom: seq<set<nat>>, b: nat,
                  e: nat)
    requires b < |h| && Along(h, h1, b) && Along(h1, h', e) && e == |h| + b && Succ(h1, b) != b
    requires Final(h1, n, outUse, edom, b) && Final(h', n, outUse, edom, e)
    ensures OnlyEdgesOf(h, h', b) && BothFinal(h', n, outUse, edom, b)
  {
    FinalStays(h1, h', n, outUse, edom, b, b);
  }

  /** Whether an edge is final is a matter of its target and of the tests. */
  lemma FinalStays(h: Graph, h': Graph, n: Numbers, outUse: seq<set<Atom>>, edom: seq<set<nat>>, e: nat, b: nat)
    requires Final(h, n, outUse, edom, e) && OnlyEdgesOf(h, h', b) && Succ(h', e) == Succ(h, e) && Succ(h, e) != b
    ensures Final(h', n, outUse, edom, e)
  {
    if h'[Succ(h', e)].s.Jmp? {
      forall k | 0 <= k < 2 * |h'| && k in edom[e] ensures Declined(h', n, outUse, e, k) {
        assert Declined(h, n, outUse, e, k);
        assert h'[Pred(|h|, k)].s == h[Pred(|h|, k)].s;
      }
    }
  }

  /** Moving an edge of a block that lies no lower leaves final edges final. */
  lemma BothFinalStay(h: Graph, h': Graph, level: seq<int>, n: Numbers, outUse: seq<set<Atom>>, edom: seq<set<nat>>,
                      b: nat, c: nat)
    requires BothFinal(h, n, outUse, edom, c) && OnlyEdgesOf(h, h', b) && c != b && c < |h| && Leveled(h, level)
    requires 0 <= level[c] <= level[b] && h[c].s.Jmp?
    ensures BothFinal(h', n, outUse, edom, c)
  {
    FinalStays(h, h', n, outUse, edom, c, b);
    FinalStays(h, h', n, outUse, edom, |h| + c, b);
  }

  /** The tests of level `i` and below in `live` have final edges, of level `i` only those in `list`. */
  predicate FinalUpTo(h: Graph, level: seq<int>, live: set<nat>, n: Numbers, outUse: seq<set<Atom>>,
                      edom: seq<set<nat>>, i: int, list: seq<nat>) {
    |h| == |level| &&
    forall b {:trigger BothFinal(h, n, outUse, edom, b)} ::
      b in live && b < |h| && h[b].s.Jmp? && (level[b] < i || (level[b] == i && b in list)) ==>
        BothFinal(h, n, outUse, edom, b)
  }

  lemma FinalNext(h: Graph, h': Graph, level: seq<int>, live: set<nat>, n: Numbers, outUse: seq<set<Atom>>,
                  edom: seq<set<nat>>, i: int, list: seq<nat>, c: nat)
    requires FinalUpTo(h, level, live, n, outUse, edom, i, list) && Leveled(h, level)
    requires OnlyEdgesOf(h, h', c) && c < |h| && level[c] == i && BothFinal(h', n, outUse, edom, c)
    requires forall b :: b in live && b < |h| ==> level[b] >= 0
    ensures FinalUpTo(h', level, live, n, outUse, edom, i, list + [c])
  {
    forall b | b in live && b < |h'| && h'[b].s.Jmp? && (level[b] < i || (level[b] == i && b in list + [c]))
      ensures BothFinal(h', n, outUse, edom, b)
    {
      if b != c {
        BothFinalStay(h, h', level, n, outUse, edom, c, b);
      }
    }
  }

  /** `use_conflict`: does some atom live out of `succ` leave the two blocks with different numbers? */
  method UseConflict(exit: seq<Vals>, outUse: seq<set<Atom>>, b: nat, succ: nat) returns (conflict: bool)
    requires b < |exit| && succ < |exit| == |outUse|
    ensures conflict <==> exists a: Atom :: a in outUse[succ] && exit[b][a] != exit[succ][a]
    ensures conflict == Conflict(exit, outUse, b, succ)
  {
    if outUse[succ] == {} {
      return false;
    }
    for atom := 0 to N_ATOMS
      invariant forall a: Atom :: a < atom && a in outUse[succ] ==> exit[b][a] == exit[succ][a]
    {
      if atom in outUse[succ] && exit[b][atom] != exit[succ][atom] {
        return true;
      }
    }
    return false;
  }

  /** The scan of `opt_j`: the first edge dominator that decides the test after edge `e`, if the move it
      offers meets no data dependency. */
  method FindFold(h: Graph, level: seq<int>, ghost live: set<nat>, n: Numbers, outUse: seq<set<Atom>>,
                  edom: seq<set<nat>>, e: nat)
    returns (target: Option<nat>)
    requires Leveled(h, level) && SuccClosed(h, live) && (forall b :: b in live ==> level[b] >= 0)
    requires Sized(h, n) && |outUse| == |h| && e < |edom| == 2 * |h| && Succ(h, e) in live
    ensures target.Some? ==> Justified(h, n, edom, e, target.value)
    ensures target.None? ==> Settled(h, n, outUse, edom, e)
  {
    for k := 0 to 2 * |h|
      invariant forall j :: 0 <= j < k && j in edom[e] ==> Declined(h, n, outUse, e, j)
    {
      if k in edom[e] {
        var t := FoldEdge(h, n, Succ(h, e), k);
        if t.Some? {
          JustifiedFalls(h, level, live, n, edom, e, t.value);
          var conflict := UseConflict(n.exit, outUse, Pred(|h|, e), t.value);
          if !conflict {
            return t;
          }
        }
      }
    }
    return None;
  }

  class BranchMover {
    const g: Graph
    const root: nat
    const level: seq<int>
    const levels: seq<seq<nat>>
    const n: Numbers
    const edom: seq<set<nat>>
    const outUse: seq<set<Atom>>
    /** The reachable blocks, the shared slots, and the numbering's own output. */
    ghost const live: set<nat>
    ghost const shared: set<Atom>
    ghost const g1: Graph
    /** The graph as moved so far. */
    var h: Graph
    var done: bool

    constructor (g: Graph, root: nat, level: seq<int>, levels: seq<seq<nat>>, n: Numbers, edom: seq<set<nat>>,
                 outUse: seq<set<Atom>>, ghost live: set<nat>, ghost shared: set<Atom>, ghost g1: Graph)
      requires Analysed(g, g1, root, level, levels, live, shared, n, edom) && |outUse| == |g|
      ensures this.g == g && this.root == root && this.level == level && this.levels == levels && this.n == n
      ensures this.edom == edom && this.outUse == outUse && this.live == live && this.shared == shared && this.g1 == g1
      ensures h == g && done && Valid()
    {
      this.g, this.root, this.level, this.levels, this.n := g, root, level, levels, n;
      this.edom, this.outUse, this.live, this.shared, this.g1 := edom, outUse, live, shared, g1;
      h, done := g, true;
      new;
      EdgesFall(g, level, levels, live);
    }

    /** The analyses are those of `g`. */
    ghost predicate Prepared() {
      Analysed(g, g1, root, level, levels, live, shared, n, edom) && |outUse| == |g| && Leveled(g, level)
    }

    /** The moved graph has the tests and the verdicts of `g`. */
    ghost predicate Valid()
      reads this
    {
      && Prepared()
      && Moved(g, h, level, live)
      && SameVerdict(g, h, level, root)
    }

    method Move(e: nat, d: nat, ghost b: nat)
      requires Valid() && Open(g, h, level, live, e, b)
      requires Justified(h, n, edom, e, d)
      modifies this
      ensures Valid() && h == Redirect(old(h), e, d) && !done && Open(g, h, level, live, e, b)
      ensures d in live && Succ(h, e) == d && level[d] < level[Succ(old(h), e)]
    {
      StepDown(g, h, level, live, n, edom, e, d, b);
      MoveKeepsVerdict(g, g1, h, root, level, levels, live, shared, n, edom, e, d, b);
      h := Redirect(h, e, d);
      done := false;
    }

    /** `opt_j`: move edge `e` as far as it will go. */
    method OptJ(e: nat, ghost b: nat)
      requires Valid() && Open(g, h, level, live, e, b)
      modifies this
      ensures Valid() && Open(g, h, level, live, e, b)
      ensures Succ(h, e) in live && Final(h, n, outUse, edom, e) && Along(old(h), h, e)
      ensures old(Idle(h, n, outUse, e)) ==> level[Succ(h, e)] < level[Succ(old(h), e)]
      ensures done ==> old(done) && h == old(h)
    {
      assert h[b].s == g[b].s;
      AlongNone(h, e);
      if h[Succ(h, e)].s.Jmp? {
        ghost var start := h;
        SkipCommon(e, b);
        MoveOn(e, b, start);
      }
    }

    method MoveOn(e: nat, ghost b: nat, ghost start: Graph)
      requires Valid() && Open(g, h, level, live, e, b) && Succ(h, e) in live && Along(start, h, e)
      modifies this
      ensures Valid() && Open(g, h, level, live, e, b)
      ensures Succ(h, e) in live && Final(h, n, outUse, edom, e) && Along(start, h, e)
      ensures level[Succ(h, e)] <= level[Succ(old(h), e)] && (done ==> old(done) && h == old(h))
    {
      var more := true;
      while more
        invariant Valid() && Open(g, h, level, live, e, b) && Succ(h, e) in live && Along(start, h, e)
        invariant !more ==> Final(h, n, outUse, edom, e)
        invariant level[Succ(h, e)] <= level[Succ(old(h), e)] && (done ==> old(done) && h == old(h))
        decreases level[Succ(h, e)], more
      {
        more := NextMove(e, b, start);
      }
    }

    /** One more move of edge `e`, which has come from where it was in `start`. */
    method NextMove(e: nat, ghost b: nat, ghost start: Graph) returns (more: bool)
      requires Valid() && Open(g, h, level, live, e, b) && Succ(h, e) in live && Along(start, h, e)
      modifies this
      ensures Valid() && Open(g, h, level, live, e, b) && Succ(h, e) in live && Along(start, h, e)
      ensures if more then level[Succ(h, e)] < level[Succ(old(h), e)]
              else level[Succ(h, e)] <= level[Succ(old(h), e)] && Final(h, n, outUse, edom, e)
      ensures done ==> old(done) && h == old(h)
    {
      more := OnePast(e, b);
      AlongTwice(start, old(h), h, e);
    }

    /** One move of edge `e`, if `fold_edge` offers one; says whether to look for more. */
    method OnePast(e: nat, ghost b: nat) returns (more: bool)
      requires Valid() && Open(g, h, level, live, e, b) && Succ(h, e) in live
      modifies this
      ensures Valid() && Open(g, h, level, live, e, b) && Succ(h, e) in live && Along(old(h), h, e)
      ensures if more then level[Succ(h, e)] < level[Succ(old(h), e)]
              else level[Succ(h, e)] <= level[Succ(old(h), e)] && Final(h, n, outUse, edom, e)
      ensures done ==> old(done) && h == old(h)
    {
      AlongNone(h, e);
      var target := FindFold(h, level, live, n, outUse, edom, e);
      if target.None? {
        return false;
      }
      Move(e, target.value, b);
      AlongMore(old(h), old(h), h, e, target.value);
      more := h[target.value].s.Jmp?;
    }

    /** The common target of a test with equal branches, if nothing conflicts. */
    method SkipCommon(e: nat, ghost b: nat)
      requires Valid() && Open(g, h, level, live, e, b) && Succ(h, e) in live && h[Succ(h, e)].s.Jmp?
      modifies this
      ensures Valid() && Open(g, h, level, live, e, b) && Succ(h, e) in live
      ensures Along(old(h), h, e)
      ensures if old(Idle(h, n, outUse, e)) then level[Succ(h, e)] < level[Succ(old(h), e)]
              else h == old(h)
      ensures done ==> old(done) && h == old(h)
    {
      AlongNone(h, e);
      var c := Succ(h, e);
      if h[c].jt == h[c].jf {
        var conflict := UseConflict(n.exit, outUse, Pred(|h|, e), h[c].jt);
        if !conflict {
          var d := h[c].jt;
          Move(e, d, b);
          AlongMore(old(h), old(h), h, e, d);
        }
      }
    }

    /** The sweep of `opt_blks`, lowest level first: every verdict that is not an abort is kept, and no edge is left
        that could be moved. */
    method MoveBranches()
      requires Valid() && h == g
      modifies this
      ensures Valid() && (done ==> old(done) && h == g)
      ensures AllFinal(h, live, n, outUse, edom) && AllUntold(h, live, n, outUse, edom)
    {
      assert FinalUpTo(h, level, live, n, outUse, edom, 1, []) by { NoneBelow(); }
      for i := 1 to level[root] + 1
        invariant Valid() && SameAbove(g, h, level, i - 1) && FinalUpTo(h, level, live, n, outUse, edom, i, [])
        invariant done ==> old(done) && h == g
      {
        MoveLevel(i);
      }
      EdgesFall(g, level, levels, live);
      FinalIsUntold(g, h, g1, root, level, levels, live, shared, n, outUse, edom);
    }

    /** Tests lie above level 0. */
    lemma NoneBelow()
      requires Valid() && h == g
      ensures FinalUpTo(h, level, live, n, outUse, edom, 1, [])
    {
      EdgesFall(g, level, levels, live);
    }

    method MoveLevel(i: nat)
      requires Valid() && 0 < i <= level[root] && i < |levels| && SameAbove(g, h, level, i - 1)
      requires FinalUpTo(h, level, live, n, outUse, edom, i, [])
      modifies this
      ensures Valid() && SameAbove(g, h, level, i) && FinalUpTo(h, level, live, n, outUse, edom, i + 1, [])
      ensures done ==> old(done) && h == old(h)
    {
      for j := 0 to |levels[i]|
        invariant Valid() && SameAbove(g, h, level, i)
        invariant FinalUpTo(h, level, live, n, outUse, edom, i, levels[i][..j])
        invariant done ==> old(done) && h == old(h)
      {
        OnLevel(i, j);
        MoveNext(levels[i][j], i, levels[i][..j]);
        assert levels[i][..j + 1] == levels[i][..j] + [levels[i][j]];
      }
      LevelDone(i);
    }

    /** The next block of level `i`. */
    method MoveNext(b: nat, ghost i: nat, ghost list: seq<nat>)
      requires Valid() && b in live && b < |g| && g[b].s.Jmp? && level[b] == i && SameAbove(g, h, level, i)
      requires FinalUpTo(h, level, live, n, outUse, edom, i, list)
      modifies this
      ensures Valid() && SameAbove(g, h, level, i)
      ensures FinalUpTo(h, level, live, n, outUse, edom, i, list + [b])
      ensures done ==> old(done) && h == old(h)
    {
      LiveLevelled();
      MoveBlock(b);
      FinalNext(old(h), h, level, live, n, outUse, edom, i, list, b);
    }

    lemma OnLevel(i: nat, j: nat)
      requires Valid() && 0 < i < |levels| && j < |levels[i]|
      ensures var b := levels[i][j]; b < |g| && level[b] == i && b in live && g[b].s.Jmp?
    {
      assert ListOk(g, level, levels[i], i);
      assert ExactLevel(g, level, levels[i][j]);
    }

    lemma LiveLevelled()
      requires Valid()
      ensures forall b :: b in live && b < |h| ==> level[b] >= 0
    {
    }

    lemma LevelDone(i: nat)
      requires Valid() && i < |levels| && FinalUpTo(h, level, live, n, outUse, edom, i, levels[i][..|levels[i]|])
      ensures FinalUpTo(h, level, live, n, outUse, edom, i + 1, [])
    {
      forall b | b in live && b < |h| && h[b].s.Jmp? && level[b] < i + 1 ensures BothFinal(h, n, outUse, edom, b) {
        if level[b] == i {
          assert b in levels[i];
          assert levels[i][..|levels[i]|] == levels[i];
        }
      }
    }

    lemma BothOpen(b: nat)
      requires Valid() && b in live && g[b].s.Jmp? && SameAbove(g, h, level, level[b])
      ensures Open(g, h, level, live, b, b) && Open(g, h, level, live, |g| + b, b) && Succ(h, b) != b && |h| == |g|
    {
      assert h[b].s == g[b].s;
    }

    method MoveBlock(b: nat)
      requires Valid() && b in live && g[b].s.Jmp? && SameAbove(g, h, level, level[b])
      modifies this
      ensures Valid() && SameAbove(g, h, level, level[b])
      ensures OnlyEdgesOf(old(h), h, b) && BothFinal(h, n, outUse, edom, b)
      ensures done ==> old(done) && h == old(h)
    {
      BothOpen(b);
      OptJ(b, b);
      ghost var h1 := h;
      BothOpen(b);
      assert Along(old(h), h1, b) && Final(h1, n, outUse, edom, b) && Succ(h1, b) != b && |old(h)| == |g|;
      var e := |g| + b;
      OptJ(e, b);
      AlongBoth(old(h), h1, h, n, outUse, edom, b, e);
    }
  }
}
