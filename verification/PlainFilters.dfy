/** Filters on which the first loop is right on every packet on which no test aborts: those whose tests are plain,
    as are all that the generators of comparisons and relations emit, "jset #0xffffffff" aside. */
module PlainFilters {
  import opened Machine
  import opened Atoms
  import opened Paths
  import opened Levels
  import opened Peephole
  import opened PeepholePass
  import opened Sweep
  import opened Optimizer
  import opened PlainBlocks
  import opened FirstLoop
  import opened Relations
  import opened FrameTests
  import F = FilterExpr
  import P = Backpatch
  import A = ArithCode

  predicate PlainTests(e: F.Expr) {
    match e
    case Leaf(t) => Plain(t.stmts, t.s)
    case Not(e1) => PlainTests(e1)
    case Conj(l, r) => PlainTests(l) && PlainTests(r)
    case Disj(l, r) => PlainTests(l) && PlainTests(r)
  }

  /** No test of the expression aborts on the packet, whether it is reached or not. */
  predicate NoTestAborts(e: F.Expr, p: Packet) {
    match e
    case Leaf(t) => ExecAll(t.stmts, F.ZeroState, p).Some?
    case Not(e1) => NoTestAborts(e1, p)
    case Conj(l, r) => NoTestAborts(l, p) && NoTestAborts(r, p)
    case Disj(l, r) => NoTestAborts(l, p) && NoTestAborts(r, p)
  }

  ghost predicate PlainGraph(g: Graph, root: nat) {
    forall b {:trigger g[b]} :: b in LiveBlocks(g, root) && b < |g| ==> Plain(g[b].stmts, g[b].s)
  }

  /** No reachable block aborts on the packet, in whatever state it is entered. */
  ghost predicate NoBlockAborts(g: Graph, root: nat, p: Packet) {
    forall b, st: State {:trigger ExecAll(g[b].stmts, st, p)} :: b in LiveBlocks(g, root) && b < |g| ==>
      ExecAll(g[b].stmts, st, p).Some?
  }

  lemma LiveSuccClosed(g: Graph, root: nat)
    requires WellFormed(g) && root < |g|
    ensures SuccClosed(g, LiveBlocks(g, root)) && root in LiveBlocks(g, root)
  {
    var rel, live := BlockRel(g), LiveBlocks(g, root);
    LiveClosed(rel, Only(root), |g|);
    RootIsLive(g, root);
    forall b | b in live && g[b].s.Jmp? ensures g[b].jt in live && g[b].jf in live {
      assert rel(b, g[b].jt) && rel(b, g[b].jf);
    }
  }

  /** A reachable block after a turn: reachable before, still plain, and it runs to the end where it did. */
  lemma BlockAfterTurn(g: Graph, root: nat, r: Record, h: Graph, b: nat)
    requires TurnOf(g, root, r, h) && PlainGraph(g, root) && b in LiveBlocks(r.moved, root)
    ensures b in LiveBlocks(g, root) && b < |g| == |h| == |r.moved|
    ensures h[b].stmts == r.moved[b].stmts && Plain(h[b].stmts, h[b].s) && RunsToo(g[b].stmts, h[b].stmts)
  {
    var ca, cx := ConstantAt(r.n, b, A_ATOM), ConstantAt(r.n, b, X_ATOM);
    assert r.moved[b].stmts == r.swept[b].stmts && r.moved[b].s == r.swept[b].s;
    assert h[b].stmts == r.moved[b].stmts && h[b].s == r.moved[b].s;
    assert FinishedAt(g, r.swept, r.n, false, r.outUse, b);
    FinishedPlain(g[b], r.swept[b], r.outUse[b], ca, cx);
    FinishedRuns(g[b], r.swept[b], r.outUse[b], ca, cx);
  }

  /** A plain graph meets the conditions of its turn, on every packet on which no block aborts. */
  lemma PlainTurnFine(g: Graph, root: nat, r: Record, h: Graph, st: State, p: Packet)
    requires TurnOf(g, root, r, h) && PlainGraph(g, root) && WellFormed(g) && root < |g|
    ensures NoBlockAborts(g, root, p) ==> Fine(r, root, st, p)
  {
    LiveSuccClosed(g, root);
    forall b | b in r.live ensures !TestsAllBits(g[b], r.outUse[b]) && r.lv[b] >= 0 {
      assert r.outUse[b] == r.outUse[b];
      PlainSpares(g[b], r.outUse[b]);
    }
    NoMasks(g, g, r.lv, r.live, r.outUse, root, st, p);
    if NoBlockAborts(g, root, p) {
      forall b, base: State | b in LiveBlocks(r.moved, root) && b < |r.moved|
        ensures ExecAll(r.moved[b].stmts, base, p).Some?
      {
        BlockAfterTurn(g, root, r, h, b);
        assert ExecAll(g[b].stmts, base, p).Some?;
      }
    }
  }

  lemma PlainTurnFresh(g: Graph, root: nat, r: Record, h: Graph)
    requires TurnOf(g, root, r, h) && PlainGraph(g, root)
    ensures FreshTurn(r)
  {
    forall b | b in r.live && b < |g| ensures FreshX(g[b].stmts, g[b].s, r.outUse[b], 0) {
      PlainSpares(g[b], r.outUse[b]);
    }
  }

  /** What is left of `g` after some turns: no new reachable block, all of them plain, none that aborts where it
      did not. */
  ghost predicate PlainlyLeft(g: Graph, h: Graph, root: nat) {
    && |h| == |g| && WellFormed(h) && PlainGraph(h, root)
    && forall b {:trigger h[b]} :: b in LiveBlocks(h, root) && b < |h| ==>
         b in LiveBlocks(g, root) && RunsToo(g[b].stmts, h[b].stmts)
  }

  lemma PlainlyLeftMore(g: Graph, g1: Graph, h: Graph, root: nat, r: Record)
    requires PlainlyLeft(g, g1, root) && TurnOf(g1, root, r, h)
    ensures PlainlyLeft(g, h, root)
  {
    forall b | b in LiveBlocks(h, root) && b < |h|
      ensures b in LiveBlocks(g, root) && Plain(h[b].stmts, h[b].s) && RunsToo(g[b].stmts, h[b].stmts)
    {
      BlockAfterTurn(g1, root, r, h, b);
      assert RunsToo(g[b].stmts, g1[b].stmts) && RunsToo(g1[b].stmts, h[b].stmts);
    }
  }

  lemma PlainTurnAt(g: Graph, h: Graph, root: nat, gs: seq<Graph>, rs: seq<Record>, i: nat)
    requires Turns(g, h, root, gs, rs) && i < |rs| && PlainlyLeft(g, gs[i], root)
    ensures PlainlyLeft(g, gs[i + 1], root)
  {
    TurnAt(g, h, root, gs, rs, i);
    PlainlyLeftMore(g, gs[i], gs[i + 1], root, rs[i]);
  }

  lemma {:induction false} PlainTurns(g: Graph, h: Graph, root: nat, gs: seq<Graph>, rs: seq<Record>, i: nat)
    requires Turns(g, h, root, gs, rs) && WellFormed(g) && PlainGraph(g, root) && i <= |rs|
    ensures PlainlyLeft(g, gs[i], root)
  {
    if i > 0 {
      PlainTurns(g, h, root, gs, rs, i - 1);
      PlainTurnAt(g, h, root, gs, rs, i - 1);
    }
  }

  /** So a plain graph meets the conditions of the first loop on every packet on which no block aborts. */
  lemma PlainLoop(g: Graph, h: Graph, root: nat, gs: seq<Graph>, rs: seq<Record>)
    requires Turns(g, h, root, gs, rs) && WellFormed(g) && PlainGraph(g, root) && root < |g|
    ensures AllFresh(rs)
    ensures forall st: State, p: Packet :: NoBlockAborts(g, root, p) ==> AllFine(rs, root, st, p)
  {
    forall i | 0 <= i < |rs| ensures FreshTurn(rs[i]) {
      PlainTurns(g, h, root, gs, rs, i);
      TurnAt(g, h, root, gs, rs, i);
      PlainTurnFresh(gs[i], root, rs[i], gs[i + 1]);
    }
    forall st: State, p: Packet, i | NoBlockAborts(g, root, p) && 0 <= i < |rs| ensures Fine(rs[i], root, st, p) {
      PlainTurns(g, h, root, gs, rs, i);
      TurnAt(g, h, root, gs, rs, i);
      StillNoAborts(g, gs[i], root, p);
      PlainTurnFine(gs[i], root, rs[i], gs[i + 1], st, p);
    }
  }

  lemma StillNoAborts(g: Graph, h: Graph, root: nat, p: Packet)
    requires PlainlyLeft(g, h, root) && NoBlockAborts(g, root, p)
    ensures NoBlockAborts(h, root, p)
  {
    forall b, st: State | b in LiveBlocks(h, root) && b < |h| ensures ExecAll(h[b].stmts, st, p).Some? {
      assert RunsToo(g[b].stmts, h[b].stmts);
      assert ExecAll(g[b].stmts, st, p).Some?;
    }
  }

  lemma {:induction false} TestsArePlain(e: F.Expr, lo: nat, i: nat)
    requires PlainTests(e) && lo <= i < lo + F.Span(e)
    ensures var t := F.TestAt(e, lo, i); Plain(t.stmts, t.s)
  {
    match e
    case Leaf(_) =>
    case Not(e1) => TestsArePlain(e1, lo, i);
    case Conj(l, r) => if i < lo + F.Span(l) { TestsArePlain(l, lo, i); } else { TestsArePlain(r, lo + F.Span(l), i); }
    case Disj(l, r) => if i < lo + F.Span(l) { TestsArePlain(l, lo, i); } else { TestsArePlain(r, lo + F.Span(l), i); }
  }

  lemma {:induction false} TestsRun(e: F.Expr, lo: nat, i: nat, st: State, p: Packet)
    requires F.Proper(e) && NoTestAborts(e, p) && lo <= i < lo + F.Span(e)
    ensures ExecAll(F.TestAt(e, lo, i).stmts, st, p).Some?
  {
    match e
    case Leaf(t) => ClosedExec(t.stmts, t.s, {}, st, F.ZeroState, p);
    case Not(e1) => TestsRun(e1, lo, i, st, p);
    case Conj(l, r) =>
      if i < lo + F.Span(l) { TestsRun(l, lo, i, st, p); } else { TestsRun(r, lo + F.Span(l), i, st, p); }
    case Disj(l, r) =>
      if i < lo + F.Span(l) { TestsRun(l, lo, i, st, p); } else { TestsRun(r, lo + F.Span(l), i, st, p); }
  }

  /** The code of an expression with plain tests. */
  lemma PlainCode(g: Graph, e: F.Expr, snaplen: Word, root: nat)
    requires P.FinishedGraph(g, e, 0, F.Span(e), snaplen) && PlainTests(e)
    ensures PlainGraph(g, root)
  {
    forall b | b in LiveBlocks(g, root) && b < |g| ensures Plain(g[b].stmts, g[b].s) {
      if b < F.Span(e) {
        assert F.Places(g[b], F.TestAt(e, 0, b), F.ExitsAt(e, 0, b, F.To(F.Span(e)), F.To(F.Span(e) + 1)));
        TestsArePlain(e, 0, b);
      }
    }
  }

  lemma CodeRuns(g: Graph, e: F.Expr, snaplen: Word, root: nat, p: Packet)
    requires P.FinishedGraph(g, e, 0, F.Span(e), snaplen) && F.Proper(e) && NoTestAborts(e, p)
    ensures NoBlockAborts(g, root, p)
  {
    forall b, st: State | b in LiveBlocks(g, root) && b < |g| ensures ExecAll(g[b].stmts, st, p).Some? {
      if b < F.Span(e) {
        assert F.Places(g[b], F.TestAt(e, 0, b), F.ExitsAt(e, 0, b, F.To(F.Span(e)), F.To(F.Span(e) + 1)));
        TestsRun(e, 0, b, st, p);
      }
    }
  }

  lemma {:induction false} NoTestAbortsDecides(e: F.Expr, p: Packet)
    requires F.Proper(e) && NoTestAborts(e, p)
    ensures F.Eval(e, p).Some?
  {
    match e
    case Leaf(_) =>
    case Not(e1) => NoTestAbortsDecides(e1, p);
    case Conj(l, r) => NoTestAbortsDecides(l, p); NoTestAbortsDecides(r, p);
    case Disj(l, r) => NoTestAbortsDecides(l, p); NoTestAbortsDecides(r, p);
  }

  /** Comparisons of a field, as `gen_ncmp` makes them, are plain. */
  lemma NcmpPlain(offset: Word, size: Size, mask: Word, jop: JmpOp, reverse: bool, v: Word)
    requires !(jop.Jset? && v == 0xffffffff)
    ensures PlainTests(GenNcmp(offset, size, mask, jop, reverse, v))
  {
  }

  lemma {:induction false} CodeNoMask(t: A.Placed, nl: Word)
    ensures NoMask(A.Code(t, nl))
  {
    match t
    case PNum(_, _) =>
    case PLen(_) =>
    case PLoad(_, _, i, _) => CodeNoMask(i, nl);
    case PMinus(e) => CodeNoMask(e, nl);
    case PBin(_, _, _, _) =>
      CodeNoMask(t.l, nl);
      CodeNoMask(t.r, nl);
  }

  /** So are relations between arithmetic expressions. */
  lemma RelTestPlain(op: JmpOp, l: A.Placed, r: A.Placed, nl: Word)
    ensures PlainTests(F.Leaf(RelTest(op, l, r, nl)))
  {
    RelTestFresh(op, l, r, nl);
    CodeNoMask(l, nl);
    CodeNoMask(r, nl);
  }

  /** What is left of a graph aborts on every packet only where the graph did. */
  lemma StillHopeless(g: Graph, h: Graph, root: nat, b: nat)
    requires PlainlyLeft(g, h, root) && b in LiveBlocks(h, root) && b < |h| && AlwaysAborts(h[b].stmts)
    ensures AlwaysAborts(g[b].stmts)
  {
    forall st: State, p: Packet ensures ExecAll(g[b].stmts, st, p).None? {
      assert RunsToo(g[b].stmts, h[b].stmts) && ExecAll(h[b].stmts, st, p).None?;
    }
  }
}
