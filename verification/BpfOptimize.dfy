/** `bpf_optimize`: the first loop, the second loop, `opt_loop(root, 1)`, whose sweeps rewrite the statements, and
    the interning of equal blocks; and from there the whole compiler, from expression to array. */
module BpfOptimize {
  import opened Machine
  import opened Levels
  import opened Liveness
  import opened Numbering
  import opened NumberingPass
  import opened PeepholePass
  import opened Sweep
  import opened Allocation
  import opened InternBlocks
  import opened Optimizer
  import opened FirstLoop
  import opened PlainFilters
  import opened Layout
  import opened Convert
  import F = FilterExpr
  import P = Backpatch

  /** What a rewriting turn went by: its graph and the live blocks, levels and live-out sets of that graph, the
      numbering and what it made of the graph. */
  datatype Rewriting = Rewriting(g: Graph, live: set<nat>, lv: seq<int>, outUse: seq<AtomSet>, n: Numbers, g1: Graph)

  /** The turn from `g` to `h`: numbering with rewriting, and every live block finished by the liveness of `g`. */
  ghost predicate RewritingOf(g: Graph, root: nat, w: Rewriting, h: Graph) {
    && w.g == g && w.live == LiveBlocks(g, root) && IsLiveness(g, w.lv, w.live, w.outUse)
    && NumberingOf(g, w.g1, root, w.n, true)
    && SweptGraph(w.g1, h, w.live, w.n, true, w.outUse) && Untouched(w.g1, h, w.live)
    && Remains(g, h, root) && WellFormed(h)
  }

  /** `hs` are the graphs from `g` to `h` between the turns. */
  ghost predicate Rewritings(g: Graph, h: Graph, root: nat, hs: seq<Graph>, ws: seq<Rewriting>) {
    && |hs| == |ws| + 1 && hs[0] == g && hs[|ws|] == h
    && forall i :: 0 <= i < |ws| ==> RewritingOf(hs[i], root, ws[i], hs[i + 1])
  }

  lemma RewritingsMore(g: Graph, g1: Graph, h: Graph, root: nat, hs: seq<Graph>, ws: seq<Rewriting>, w: Rewriting)
    requires Rewritings(g, g1, root, hs, ws) && RewritingOf(g1, root, w, h)
    ensures Rewritings(g, h, root, hs + [h], ws + [w])
  {
  }

  /** The turn had a graph on which its sweep keeps verdicts. */
  ghost predicate Safe(w: Rewriting) {
    Sweepable(w.g, w.g1, w.lv, w.live, w.n, true, w.outUse)
  }

  /** A run whose tests of all bits find a bit. */
  ghost predicate Spared(w: Rewriting, root: nat, st: State, p: Packet) {
    && Leveled(w.g1, w.lv) && root < |w.g1| == |w.outUse| && Sized(w.g1, w.n) && w.lv[root] >= 0
    && SparesAllBits(w.g1, Middle(w.g1, w.n, true, w.outUse), w.lv, w.outUse, root, st, p)
  }

  ghost predicate AllSafe(ws: seq<Rewriting>) {
    forall i :: 0 <= i < |ws| ==> Safe(ws[i])
  }

  ghost predicate AllSpared(ws: seq<Rewriting>, root: nat, st: State, p: Packet) {
    forall i :: 0 <= i < |ws| ==> Spared(ws[i], root, st, p)
  }

  /** `h` gives the verdict of `g` on every run that does not abort and that all turns spare. */
  ghost predicate KeepsSpared(g: Graph, lv: seq<int>, h: Graph, lv': seq<int>, root: nat, ws: seq<Rewriting>) {
    && Leveled(g, lv) && Leveled(h, lv') && root < |g| == |h| && lv[root] >= 0 && lv'[root] >= 0
    && forall st: State, p: Packet :: Run(g, lv, root, st, p) != Abort && AllSpared(ws, root, st, p) ==>
         Run(h, lv', root, st, p) == Run(g, lv, root, st, p)
  }

  lemma KeepsSparedMore(g: Graph, lv: seq<int>, g0: Graph, lv0: seq<int>, h: Graph, lv': seq<int>, root: nat,
                        ws: seq<Rewriting>, w: Rewriting)
    requires KeepsSpared(g, lv, g0, lv0, root, ws) && w.lv == lv'
    requires Sized(w.g1, w.n) && |w.outUse| == |w.g1|
    requires KeepsVerdictButAllBits(g0, lv0, w.g1, Middle(w.g1, w.n, true, w.outUse), h, lv', w.outUse, root)
    ensures KeepsSpared(g, lv, h, lv', root, ws + [w])
  {
    forall st: State, p: Packet | Run(g, lv, root, st, p) != Abort && AllSpared(ws + [w], root, st, p)
      ensures Run(h, lv', root, st, p) == Run(g, lv, root, st, p)
    {
      assert AllSpared(ws, root, st, p) by {
        forall i | 0 <= i < |ws| ensures Spared(ws[i], root, st, p) { assert Spared((ws + [w])[i], root, st, p); }
      }
      assert Spared((ws + [w])[|ws|], root, st, p);
    }
  }

  lemma SafeBefore(ws: seq<Rewriting>, w: Rewriting)
    requires AllSafe(ws + [w])
    ensures AllSafe(ws) && Safe(w)
  {
    forall i | 0 <= i < |ws| ensures Safe(ws[i]) {
      assert Safe((ws + [w])[i]);
    }
    assert Safe((ws + [w])[|ws|]);
  }

  /** Any number of rewriting sweeps.  One fails only where numbering comes upon a division by a constant zero; if
      it is the first, and the graph is a generated one, that block aborts on every packet. */
  method SecondLoop(g: Graph, root: nat, turns: nat, ghost lv: seq<int>)
    returns (ok: bool, h: Graph, ghost lv': seq<int>, ghost hs: seq<Graph>, ghost ws: seq<Rewriting>,
             ghost failed: nat)
    requires Rooted(g, lv, root)
    ensures Rooted(h, lv', root) && Remains(g, h, root) && Rewritings(g, h, root, hs, ws)
    ensures forall i :: 0 <= i < |ws| ==> |ws[i].n.tbl| < MaxVal(g, LiveBlocks(g, root), |g|)
    ensures AllSafe(ws) ==> KeepsSpared(g, lv, h, lv', root, ws)
    ensures if ok then |ws| == turns else |ws| < turns && Fails(h, root, LiveBlocks(h, root), true, failed)
    ensures !ok && ws == [] && Generated(g) ==> failed < |g| && AlwaysAborts(g[failed].stmts)
  {
    ok, h, lv', hs, ws, failed := true, g, lv, [g], [], 0;
    for i := 0 to turns
      invariant ok && Rooted(h, lv', root) && Remains(g, h, root) && |ws| == i && Rewritings(g, h, root, hs, ws)
      invariant forall k :: 0 <= k < i ==> |ws[k].n.tbl| < MaxVal(g, LiveBlocks(g, root), |g|)
      invariant AllSafe(ws) ==> KeepsSpared(g, lv, h, lv', root, ws)
    {
      var g1, g2, n, outUse;
      ghost var lv1;
      ok, g1, g2, lv1, n, outUse, failed := SweepPass(h, root, true, lv');
      if !ok {
        return;
      }
      ghost var w := Rewriting(h, LiveBlocks(h, root), lv1, outUse, n, g1);
      RewritingsMore(g, h, g2, root, hs, ws, w);
      RemainsTrans(g, h, g2, root);
      RootIsLive(h, root);
      NeverOverrun(g, LiveBlocks(g, root), h, LiveBlocks(h, root), |n.tbl|, root);
      if AllSafe(ws + [w]) {
        SafeBefore(ws, w);
        KeepsSparedMore(g, lv, h, lv', g2, lv1, root, ws, w);
      }
      h, lv', hs, ws := g2, lv1, hs + [g2], ws + [w];
    }
  }

  /** Exact levels, as `intern_blocks` has them. */
  method Exactly(g: Graph, root: nat, ghost lv: seq<int>) returns (ghost level: seq<int>)
    requires Rooted(g, lv, root)
    ensures Ranked(g, level) && Leveled(g, level) && level[root] >= 0
  {
    var an := new Analysis(g, root, lv);
    an.FindLevels();
    level := an.level;
    SameShapeExact(g, g, an.level, an.levels);
  }

  lemma PutTogether(g: Graph, lv: seq<int>, g1: Graph, lv1: seq<int>, g2: Graph, lv2: seq<int>, h: Graph, lv': seq<int>,
                    root: nat, rs: seq<Record>, ws: seq<Rewriting>)
    requires KeepsFine(g, lv, g1, lv1, root, rs) && KeepsSpared(g1, lv1, g2, lv2, root, ws)
    requires Leveled(g2, lv') && Leveled(h, lv') && |h| == |g2| && lv'[root] >= 0 && SameRuns(g2, h, lv', root)
    ensures Together(g, lv, h, lv', root, rs, ws)
  {
    forall st: State, p: Packet |
      Run(g, lv, root, st, p) != Abort && AllFine(rs, root, st, p) && AllSpared(ws, root, st, p)
      ensures Run(h, lv', root, st, p) == Run(g, lv, root, st, p)
    {
      RunIgnoresLevels(g2, lv2, lv', root, st, p);
    }
  }

  /** The verdict is kept on every run that does not abort and that all turns do right by. */
  ghost predicate Together(g: Graph, lv: seq<int>, h: Graph, lv': seq<int>, root: nat, rs: seq<Record>,
                           ws: seq<Rewriting>) {
    && Leveled(g, lv) && Leveled(h, lv') && root < |g| == |h| && lv[root] >= 0 && lv'[root] >= 0
    && forall st: State, p: Packet ::
         Run(g, lv, root, st, p) != Abort && AllFine(rs, root, st, p) && AllSpared(ws, root, st, p) ==>
           Run(h, lv', root, st, p) == Run(g, lv, root, st, p)
  }

  /** The turns of both loops, the graphs between them, and the block at which a failing turn stops. */
  datatype Trace = Trace(gs: seq<Graph>, rs: seq<Record>, hs: seq<Graph>, ws: seq<Rewriting>, failed: nat)

  /** From `g` the first loop goes through `turns0` turns and the second through `turns1`, to `last`; or a turn of
      the second fails at `last`. */
  ghost predicate TraceOf(g: Graph, last: Graph, root: nat, turns0: nat, turns1: nat, ok: bool, t: Trace) {
    && |t.rs| == turns0 && |t.gs| == turns0 + 1 && Turns(g, t.gs[turns0], root, t.gs, t.rs)
    && Rewritings(t.gs[turns0], last, root, t.hs, t.ws)
    && if ok then |t.ws| == turns1
       else |t.ws| < turns1 && Fails(last, root, LiveBlocks(last, root), true, t.failed)
  }

  /** The first turn of the second loop fails at a block that aborts on every packet. */
  ghost predicate FailsAtOnce(last: Graph, root: nat, t: Trace) {
    t.failed in LiveBlocks(last, root) && t.failed < |last| && AlwaysAborts(last[t.failed].stmts)
  }

  lemma FailedIsLive(g: Graph, root: nat, live: set<nat>, alter: bool, b: nat)
    requires Fails(g, root, live, alter, b)
    ensures b in live
  {
    var g', n, seen :| FailsAt(g, g', root, live, n, alter, seen, b);
    var val :| FailsFrom(g, g', root, live, n, alter, seen, b, val);
  }

  /** `bpf_optimize` without `opt_root`: the turns of both loops, then interning.  Interning keeps the verdict of the
      last graph, aborts included, and leaves no two reachable blocks equal; the loops keep it on every run that all
      turns do right by. */
  method BpfOptimize(g: Graph, root: nat, turns0: nat, turns1: nat, ghost lv: seq<int>)
    returns (ok: bool, h: Graph, ghost lv': seq<int>, ghost last: Graph, ghost t: Trace)
    requires Rooted(g, lv, root) && Generated(g)
    ensures TraceOf(g, last, root, turns0, turns1, ok, t) && root < |h| == |last|
    ensures ok ==> Leveled(last, lv') && Leveled(h, lv') && lv'[root] >= 0 && SameRuns(last, h, lv', root)
    ensures ok ==> AllDistinct(h, root)
    ensures ok && AllFresh(t.rs) && AllSafe(t.ws) ==> Together(g, lv, h, lv', root, t.rs, t.ws)
    ensures !ok && t.ws == [] ==> FailsAtOnce(last, root, t)
  {
    var g1, g2;
    ghost var lv1, lv2, gs, rs, hs, ws, failed;
    g1, lv1, gs, rs := Loop(g, root, turns0, lv);
    ok, g2, lv2, hs, ws, failed := SecondLoop(g1, root, turns1, lv1);
    h, lv', last, t := g2, lv2, g2, Trace(gs, rs, hs, ws, failed);
    if ok {
      lv' := Exactly(g2, root, lv2);
      h := InternBlocks.InternBlocks(g2, root, lv');
      if AllFresh(rs) && AllSafe(ws) {
        PutTogether(g, lv, g1, lv1, g2, lv2, h, lv', root, rs, ws);
      }
    } else {
      FailedIsLive(g2, root, LiveBlocks(g2, root), true, failed);
    }
  }

  /** The code generator: a generated graph, the code of the expression, that decides as it does. */
  method Generate(e: F.Expr, snaplen: Word) returns (g: Graph, ghost lv: seq<int>)
    requires F.Proper(e)
    ensures Rooted(g, lv, 0) && Generated(g) && P.FinishedGraph(g, e, 0, F.Span(e), snaplen)
    ensures forall st: State, p: Packet ::
              Run(g, lv, 0, st, p) == F.Choose(F.Eval(e, p), Return(snaplen), Return(0))
  {
    var gen := new P.Generator();
    var b := gen.Compile(e);
    var root := gen.FinishParse(b, snaplen, e, 0);
    g := P.ToGraph(gen.blocks);
    lv := P.ByIndex(|g|, 0);
    P.FinishedShape(gen.blocks, e, 0, snaplen);
    FinishedGenerated(gen.blocks, e, snaplen);
    forall st: State, p: Packet ensures Run(g, lv, 0, st, p) == F.Choose(F.Eval(e, p), Return(snaplen), Return(0)) {
      P.FilterCorrect(gen.blocks, e, 0, snaplen, st, p);
    }
  }

  /** The array returns `snaplen` if the expression is true of the packet and 0 if it is false. */
  predicate Decides(code: seq<Insn>, e: F.Expr, snaplen: Word, st: State, p: Packet)
    requires F.Proper(e) && F.Eval(e, p).Some?
  {
    RunArray(code, 0, st, p) == Return(if F.Eval(e, p).value then snaplen else 0)
  }

  /** The compiler with its optimizer.  The array runs like the last graph of a trace that starts at the code of the
      expression.  It decides as the expression does whenever no test of it that is reached aborts and every turn
      does right by the run.  If the tests are plain the first loop does right by every packet on which none
      aborts. */
  method Compile(e: F.Expr, snaplen: Word, turns0: nat, turns1: nat)
    returns (ok: bool, code: seq<Insn>, ghost g: Graph, ghost last: Graph, ghost lv: seq<int>, ghost t: Trace)
    requires F.Proper(e)
    ensures P.FinishedGraph(g, e, 0, F.Span(e), snaplen) && WellFormed(g)
    ensures TraceOf(g, last, 0, turns0, turns1, ok, t)
    ensures ok ==> Leveled(last, lv) && |last| > 0 && lv[0] >= 0
    ensures ok ==> forall st: State, p: Packet :: RunArray(code, 0, st, p) == Run(last, lv, 0, st, p)
    ensures ok && AllFresh(t.rs) && AllSafe(t.ws) ==> forall st: State, p: Packet ::
              F.Eval(e, p).Some? && AllFine(t.rs, 0, st, p) && AllSpared(t.ws, 0, st, p) ==>
                Decides(code, e, snaplen, st, p)
    ensures PlainTests(e) ==> AllFresh(t.rs)
    ensures PlainTests(e) ==> forall st: State, p: Packet :: NoTestAborts(e, p) ==> AllFine(t.rs, 0, st, p)
    ensures !ok && t.ws == [] && PlainTests(e) ==> HopelessTest(e)
  {
    var g0, h;
    ghost var lv0;
    g0, lv0 := Generate(e, snaplen);
    g := g0;
    ok, h, lv, last, t := BpfOptimize(g0, 0, turns0, turns1, lv0);
    code := [];
    PlainTrace(e, g, last, snaplen, turns0, turns1, ok, t);
    if ok {
      var conv := new Converter(h, lv);
      code := conv.IcodeToFcode(0);
      if AllFresh(t.rs) && AllSafe(t.ws) {
        AllDecided(e, g, lv0, h, lv, code, snaplen, t);
      }
    }
  }

  lemma AllDecided(e: F.Expr, g: Graph, lv0: seq<int>, h: Graph, lv: seq<int>, code: seq<Insn>, snaplen: Word, t: Trace)
    requires F.Proper(e) && Together(g, lv0, h, lv, 0, t.rs, t.ws)
    requires forall st: State, p: Packet ::
               Run(g, lv0, 0, st, p) == F.Choose(F.Eval(e, p), Return(snaplen), Return(0))
    requires forall st: State, p: Packet :: RunArray(code, 0, st, p) == Run(h, lv, 0, st, p)
    ensures forall st: State, p: Packet ::
              F.Eval(e, p).Some? && AllFine(t.rs, 0, st, p) && AllSpared(t.ws, 0, st, p) ==>
                Decides(code, e, snaplen, st, p)
  {
    forall st: State, p: Packet | F.Eval(e, p).Some? && AllFine(t.rs, 0, st, p) && AllSpared(t.ws, 0, st, p)
      ensures Decides(code, e, snaplen, st, p)
    {
      assert Run(h, lv, 0, st, p) == Run(g, lv0, 0, st, p);
    }
  }

  lemma PlainTrace(e: F.Expr, g: Graph, last: Graph, snaplen: Word, turns0: nat, turns1: nat, ok: bool, t: Trace)
    requires F.Proper(e) && P.FinishedGraph(g, e, 0, F.Span(e), snaplen) && WellFormed(g)
    requires TraceOf(g, last, 0, turns0, turns1, ok, t) && (!ok && t.ws == [] ==> FailsAtOnce(last, 0, t))
    ensures PlainTests(e) ==> AllFresh(t.rs)
    ensures PlainTests(e) ==> forall st: State, p: Packet :: NoTestAborts(e, p) ==> AllFine(t.rs, 0, st, p)
    ensures !ok && t.ws == [] && PlainTests(e) ==> HopelessTest(e)
  {
    if PlainTests(e) {
      PlainCode(g, e, snaplen, 0);
      PlainLoop(g, t.gs[turns0], 0, t.gs, t.rs);
      forall st: State, p: Packet | NoTestAborts(e, p) ensures AllFine(t.rs, 0, st, p) {
        CodeRuns(g, e, snaplen, 0, p);
      }
      if !ok && t.ws == [] {
        PlainTurns(g, last, 0, t.gs, t.rs, turns0);
        StillHopeless(g, last, 0, t.failed);
        HopelessOf(g, e, snaplen, t.failed);
      }
    }
  }

  /** The compiler with any number of turns of the first loop and interning.  For every expression with plain tests
      the array decides as the expression does on every packet on which no test of it aborts. */
  method CompilePlain(e: F.Expr, snaplen: Word, turns: nat) returns (code: seq<Insn>)
    requires F.Proper(e) && PlainTests(e)
    ensures forall p: Packet :: NoTestAborts(e, p) ==> F.Eval(e, p).Some?
    ensures forall st: State, p: Packet :: NoTestAborts(e, p) ==>
              RunArray(code, 0, st, p) == Return(if F.Eval(e, p).value then snaplen else 0)
  {
    forall p: Packet | NoTestAborts(e, p) ensures F.Eval(e, p).Some? {
      NoTestAbortsDecides(e, p);
    }
    var ok;
    ghost var g, last, lv, t;
    ok, code, g, last, lv, t := Compile(e, snaplen, turns, 0);
    assert t.ws == [];
    forall st: State, p: Packet | NoTestAborts(e, p)
      ensures RunArray(code, 0, st, p) == Return(if F.Eval(e, p).value then snaplen else 0)
    {
      assert AllFine(t.rs, 0, st, p) && AllSpared(t.ws, 0, st, p);
      assert Decides(code, e, snaplen, st, p);
    }
  }
}
