/** One sweep of `opt_blks` over the statements, in the order of `opt_loop`: liveness first, then every
    block is numbered and at once emptied or peepholed and cleaned, against that liveness.  Numbers do not
    depend on what becomes of a block afterwards, so here all blocks are numbered before any is finished. */
module Sweep {
  import opened Collections
  import opened Machine
  import opened Atoms
  import opened Levels
  import opened Layout
  import opened Liveness
  import opened DeadStores
  import opened ValueNumbers
  import opened Numbering
  import opened NumberingPass
  import opened Peephole
  import opened PeepholePass

  /** The special case of `opt_blk`: a return, or a block from which nothing is used and which leaves A and X
      with the known numbers they had. */
  predicate Emptied(b: Block, outUse: AtomSet, before: Vals, after: Vals) {
    || !b.s.Jmp?
    || (outUse == {} && forall a: Atom :: a in {A_ATOM, X_ATOM} ==> before[a] != 0 && after[a] == before[a])
  }

  predicate EmptiedAt(g: Graph, n: Numbers, alter: bool, outUse: seq<AtomSet>, b: nat)
    requires Sized(g, n) && b < |g| == |outUse|
  {
    alter && Emptied(g[b], outUse[b], n.entry[b], n.exit[b])
  }

  /** Block `b'` is `b` without its dead stores. */
  ghost predicate CleanedBlock(b: Block, b': Block, outUse: AtomSet) {
    && b' == b.(stmts := b'.stmts) && |b'.stmts| == |b.stmts|
    && (forall i :: 0 <= i < |b.stmts| ==>
          b'.stmts[i] == if DeadAt(b.stmts, outUse + BranchUse(b.s), i) then Nop else b.stmts[i])
    && Refines(b.stmts, b'.stmts, Dropped(b.stmts, outUse + BranchUse(b.s)))
  }

  /** Block `b'` is the numbered block `b` when the sweep has done with it. */
  ghost predicate Finished(b: Block, b': Block, empty: bool, outUse: AtomSet, ca: Option<Word>, cx: Option<Word>) {
    if empty then b' == b.(stmts := [])
    else
      var b2 := PeepBlock(b, outUse, ca, cx);
      Peeped(b, b2, outUse, ca, cx) && CleanedBlock(b2, b', outUse)
  }

  ghost predicate FinishedAt(g: Graph, g': Graph, n: Numbers, alter: bool, outUse: seq<AtomSet>, b: nat)
    requires Sized(g, n) && b < |g| == |g'| == |outUse|
  {
    Finished(g[b], g'[b], EmptiedAt(g, n, alter, outUse, b), outUse[b], ConstantAt(n, b, A_ATOM),
             ConstantAt(n, b, X_ATOM))
  }

  ghost predicate SweptGraph(g: Graph, g': Graph, live: set<nat>, n: Numbers, alter: bool, outUse: seq<AtomSet>) {
    && Sized(g, n) && |g'| == |g| == |outUse|
    && forall b {:trigger FinishedAt(g, g', n, alter, outUse, b)} :: b in live && b < |g| ==>
         FinishedAt(g, g', n, alter, outUse, b)
  }

  /** The atoms that finishing a block gives up. */
  ghost function Lost(b: Block, outUse: AtomSet, ca: Option<Word>, cx: Option<Word>): set<Atom> {
    var b2 := PeepBlock(b, outUse, ca, cx);
    PeepLost(b, outUse, cx) + Dropped(b2.stmts, outUse + BranchUse(b2.s))
  }

  /** Finishing block `b` against `outUse` gives up nothing of `on`: an emptied block defines none of it but A
      and X, which it leaves as they were; any other block loses none of it. */
  ghost predicate Spares(b: Block, empty: bool, outUse: AtomSet, on: AtomSet, ca: Option<Word>, cx: Option<Word>) {
    if empty then forall i :: 0 <= i < |b.stmts| ==> Leaves(b.stmts[i], on - {A_ATOM, X_ATOM})
    else on !! Lost(b, outUse, ca, cx)
  }

  /** Statement `s` defines no atom of `on`. */
  predicate Leaves(s: Stmt, on: AtomSet) {
    AtomDef(s).Some? ==> AtomDef(s).value !in on
  }

  /** The numbered graph with its emptied blocks emptied: what is left for a run to read. */
  function Middle(g: Graph, n: Numbers, alter: bool, outUse: seq<AtomSet>): (m: Graph)
    requires Sized(g, n) && |outUse| == |g|
    ensures |m| == |g|
    ensures forall b {:trigger m[b]} :: 0 <= b < |g| ==>
              m[b] == if EmptiedAt(g, n, alter, outUse, b) then g[b].(stmts := []) else g[b]
  {
    seq(|g|, b requires 0 <= b < |g| => if EmptiedAt(g, n, alter, outUse, b) then g[b].(stmts := []) else g[b])
  }

  lemma MiddleLeveled(g: Graph, lv: seq<int>, n: Numbers, alter: bool, outUse: seq<AtomSet>)
    requires Leveled(g, lv) && Sized(g, n) && |outUse| == |g|
    ensures Leveled(Middle(g, n, alter, outUse), lv)
  {
    var m := Middle(g, n, alter, outUse);
    forall b | 0 <= b < |m| && lv[b] >= 0 && m[b].s.Jmp?
      ensures m[b].jt < |m| && m[b].jf < |m| && 0 <= lv[m[b].jt] < lv[b] && 0 <= lv[m[b].jf] < lv[b]
    {
      assert g[b].s.Jmp? && g[b].jt == m[b].jt && g[b].jf == m[b].jf;
    }
  }

  ghost predicate SparesAt(g: Graph, m: Graph, lv: seq<int>, n: Numbers, alter: bool, outUse: seq<AtomSet>, b: nat)
    requires Sized(g, n) && b < |g| == |outUse| == |m| && Leveled(m, lv) && lv[b] >= 0
  {
    Spares(g[b], EmptiedAt(g, n, alter, outUse, b), outUse[b], NeededAfter(m, lv, b), ConstantAt(n, b, A_ATOM),
           ConstantAt(n, b, X_ATOM))
  }

  /** No live block gives up an atom that matters after it.  This is a matter of the numbered graph `g` and the
      live-out sets the sweep goes by. */
  ghost predicate NothingLost(g: Graph, lv: seq<int>, live: set<nat>, n: Numbers, alter: bool, outUse: seq<AtomSet>) {
    && Sized(g, n) && |outUse| == |g|
    && var m := Middle(g, n, alter, outUse);
       Leveled(m, lv) &&
       forall b {:trigger SparesAt(g, m, lv, n, alter, outUse, b)} :: b in live && b < |g| && lv[b] >= 0 ==>
         SparesAt(g, m, lv, n, alter, outUse, b)
  }

  lemma {:induction false} LeftAsWas(ss: seq<Stmt>, on: AtomSet, st: State, p: Packet)
    requires (forall i :: 0 <= i < |ss| ==> Leaves(ss[i], on)) && ExecAll(ss, st, p).Some?
    ensures Agree(st, ExecAll(ss, st, p).value, on)
  {
    if ss != [] {
      assert Leaves(ss[0], on);
      var t := Exec(ss[0], st, p).value;
      ExecFrame(ss[0], st, st, p);
      forall i | 0 <= i < |ss[1..]| ensures Leaves(ss[1..][i], on) {
        assert ss[1..][i] == ss[i + 1];
      }
      LeftAsWas(ss[1..], on, t, p);
      AgreeTwice(st, t, ExecAll(ss, st, p).value, on);
    }
  }

  /** An emptied block: the branch goes where it went, and `on` is as it was. */
  lemma EmptiedBlock(b: Block, on: AtomSet, st: State, st': State, t: State, p: Packet)
    requires b.s.Jmp? && ExecAll(b.stmts, st, p) == Some(t) && t[A_ATOM] == st[A_ATOM] && t[X_ATOM] == st[X_ATOM]
    requires Agree(st, st', LiveIn([], b.s, on))
    requires forall i :: 0 <= i < |b.stmts| ==> Leaves(b.stmts[i], on - {A_ATOM, X_ATOM})
    ensures Chosen(b.(stmts := []), st') == Chosen(b, t) && Agree(t, st', on)
  {
    LeftAsWas(b.stmts, on - {A_ATOM, X_ATOM}, st, p);
    forall a: Atom | a in on ensures t[a] == st'[a] {
      assert a in LiveIn([], b.s, on);
    }
  }

  lemma CleanedChooses(b: Block, b': Block, outUse: AtomSet, on: AtomSet, st: State, p: Packet)
    requires b.s.Jmp? && CleanedBlock(b, b', outUse) && ExecAll(b.stmts, st, p).Some?
    requires on !! Dropped(b.stmts, outUse + BranchUse(b.s))
    ensures ExecAll(b'.stmts, st, p).Some? && b'.s.Jmp?
    ensures Agree(ExecAll(b.stmts, st, p).value, ExecAll(b'.stmts, st, p).value, on)
    ensures Chosen(b', ExecAll(b'.stmts, st, p).value) == Chosen(b, ExecAll(b.stmts, st, p).value)
  {
    var t, t' := ExecAll(b.stmts, st, p).value, ExecAll(b'.stmts, st, p).value;
    assert AgreeExcept(t, t', Dropped(b.stmts, outUse + BranchUse(b.s)));
    assert Agree(t, t', BranchUse(b.s));
  }

  /** One block: entered in states that agree on what it now needs to leave `on` right, it leaves in states
      that agree on `on`, by the same edge. */
  lemma FinishedBlock(b: Block, b': Block, empty: bool, outUse: AtomSet, on: AtomSet, ca: Option<Word>,
                      cx: Option<Word>, st: State, st': State, t: State, p: Packet)
    requires b.s.Jmp? && Finished(b, b', empty, outUse, ca, cx) && (!empty ==> FreshX(b.stmts, b.s, outUse, 0))
    requires Spares(b, empty, outUse, on, ca, cx)
    requires Agree(st, st', LiveIn(if empty then [] else b.stmts, b.s, on)) && ExecAll(b.stmts, st, p) == Some(t)
    requires Known(b.stmts, ca, cx, t) && (empty ==> t[A_ATOM] == st[A_ATOM] && t[X_ATOM] == st[X_ATOM])
    requires !empty ==> !(TestsAllBits(b, outUse) && t[A_ATOM] == 0 && b.jt != b.jf)
    ensures ExecAll(b'.stmts, st', p).Some? && b'.s.Jmp?
    ensures Agree(t, ExecAll(b'.stmts, st', p).value, on)
    ensures Chosen(b', ExecAll(b'.stmts, st', p).value) == Chosen(b, t)
  {
    if empty {
      EmptiedBlock(b, on, st, st', t, p);
    } else {
      var b2 := PeepBlock(b, outUse, ca, cx);
      PeepedBlock(b, b2, outUse, on, ca, cx, st, st', p);
      CleanedChooses(b2, b', outUse, on, st', p);
      AgreeTwice(t, ExecAll(b2.stmts, st', p).value, ExecAll(b'.stmts, st', p).value, on);
    }
  }

  lemma FinishedReturn(b: Block, b': Block, empty: bool, outUse: AtomSet, ca: Option<Word>, cx: Option<Word>,
                       st: State, st': State, p: Packet)
    requires b.s.RetK? && Finished(b, b', empty, outUse, ca, cx)
    requires Agree(st, st', LiveIn(if empty then [] else b.stmts, b.s, {})) && ExecAll(b.stmts, st, p).Some?
    ensures b'.s == b.s && ExecAll(b'.stmts, st', p).Some?
  {
    if !empty {
      LiveExec(b.stmts, b.s, {}, st, st', p);
    }
  }

  predicate ConstantReturns(g: Graph, live: set<nat>) {
    forall b {:trigger g[b]} :: b in live && b < |g| ==> !g[b].s.RetA?
  }

  /** A and X keep their values over a block that keeps their numbers. */
  lemma NumbersKept(tbl: Table, before: Vals, after: Vals, st: State, t: State, p: Packet, a: Atom)
    requires Proper(tbl) && InTable(tbl, before) && InTable(tbl, after)
    requires Explains(tbl, before, st, p) && Explains(tbl, after, t, p) && before[a] != 0 && after[a] == before[a]
    ensures t[a] == st[a]
  {
  }

  /** The same of a block with its numbers. */
  lemma SweptBlock(g1: Graph, g2: Graph, n: Numbers, alter: bool, outUse: seq<AtomSet>, on: AtomSet, b: nat,
                   st: State, st': State, t: State, p: Packet)
    requires Sized(g1, n) && b < |g1| == |g2| == |outUse| && g1[b].s.Jmp? && FinishedAt(g1, g2, n, alter, outUse, b)
    requires EmptiedAt(g1, n, alter, outUse, b) || FreshX(g1[b].stmts, g1[b].s, outUse[b], 0)
    requires ExecAll(g1[b].stmts, st, p) == Some(t)
    requires Spares(g1[b], EmptiedAt(g1, n, alter, outUse, b), outUse[b], on, ConstantAt(n, b, A_ATOM),
                    ConstantAt(n, b, X_ATOM))
    requires Agree(st, st', LiveIn(if EmptiedAt(g1, n, alter, outUse, b) then [] else g1[b].stmts, g1[b].s, on))
    requires Proper(n.tbl) && InTable(n.tbl, n.entry[b]) && Explains(n.tbl, n.entry[b], st, p)
    requires InTable(n.tbl, n.exit[b]) && Explains(n.tbl, n.exit[b], t, p)
    requires EmptiedAt(g1, n, alter, outUse, b) ||
             !(TestsAllBits(g1[b], outUse[b]) && t[A_ATOM] == 0 && g1[b].jt != g1[b].jf)
    ensures ExecAll(g2[b].stmts, st', p).Some? && g2[b].s.Jmp?
    ensures Agree(t, ExecAll(g2[b].stmts, st', p).value, on)
    ensures Chosen(g2[b], ExecAll(g2[b].stmts, st', p).value) == Chosen(g1[b], t)
  {
    var empty := EmptiedAt(g1, n, alter, outUse, b);
    if empty {
      NumbersKept(n.tbl, n.entry[b], n.exit[b], st, t, p, A_ATOM);
      NumbersKept(n.tbl, n.entry[b], n.exit[b], st, t, p, X_ATOM);
    }
    ExitKnown(n, b, g1[b].stmts, t, p);
    FinishedBlock(g1[b], g2[b], empty, outUse[b], on, ConstantAt(n, b, A_ATOM), ConstantAt(n, b, X_ATOM), st, st',
                  t, p);
  }

  /** The graph, its numbering, and what the sweep made of it going by `outUse`; `m` is what is left to read. */
  ghost predicate Swept(g: Graph, g1: Graph, m: Graph, g2: Graph, lv: seq<int>, root: nat, live: set<nat>, n: Numbers,
                        alter: bool, outUse: seq<AtomSet>) {
    && Leveled(g, lv) && Leveled(g1, lv) && Leveled(m, lv) && Leveled(g2, lv)
    && Numbered(g, g1, root, live, n, alter)
    && (forall q :: q in live ==> q < |g| && lv[q] >= 0 && !BlockRel(g)(q, root))
    && ConstantReturns(g, live) && SweptGraph(g1, g2, live, n, alter, outUse) && m == Middle(g1, n, alter, outUse)
    && AllFreshX(m, live, outUse) && NothingLost(g1, lv, live, n, alter, outUse)
  }

  /** The numbers of block `b` explain the state in which a run of `g` enters it. */
  predicate EnteredAs(n: Numbers, b: nat, st: State, p: Packet) {
    Proper(n.tbl) && b < |n.entry| && InTable(n.tbl, n.entry[b]) && Explains(n.tbl, n.entry[b], st, p)
  }

  /** From block `b` both graphs go on to the same block, in states that agree on what matters there. */
  lemma SweptStep(g: Graph, g1: Graph, m: Graph, g2: Graph, lv: seq<int>, root: nat, live: set<nat>, n: Numbers,
                  alter: bool, outUse: seq<AtomSet>, b: nat, st: State, st': State, t: State, c: nat, p: Packet)
    requires Swept(g, g1, m, g2, lv, root, live, n, alter, outUse) && b in live && EnteredAs(n, b, st, p)
    requires Agree(st, st', Needed(m, lv, b)) && ExecAll(g[b].stmts, st, p) == Some(t)
    requires g[b].s.Jmp? && c == Chosen(g[b], t) && SparesAllBits(g1, m, lv, outUse, b, st, p)
    ensures c in live && EnteredAs(n, c, t, p) && SparesAllBits(g1, m, lv, outUse, c, t, p)
    ensures ExecAll(g2[b].stmts, st', p).Some? && g2[b].s.Jmp?
    ensures Chosen(g2[b], ExecAll(g2[b].stmts, st', p).value) == c
    ensures Agree(t, ExecAll(g2[b].stmts, st', p).value, Needed(m, lv, c))
  {
    assert NumberedWell(g, g1, root, live, n, alter, b) && SparesAt(g1, m, lv, n, alter, outUse, b);
    assert FinishedAt(g1, g2, n, alter, outUse, b) && g1[b] == g[b].(stmts := g1[b].stmts);
    BlockExplained(g, g1, root, live, n, alter, b, st, p);
    SweptBlock(g1, g2, n, alter, outUse, NeededAfter(m, lv, b), b, st, st', t, p);
    assert BlockRel(g)(b, c);
    JoinExplained(g, g1, root, live, n, alter, b, c, t, p);
    assert Needed(m, lv, c) <= NeededAfter(m, lv, b);
  }

  lemma SweptLeaf(g: Graph, g1: Graph, m: Graph, g2: Graph, lv: seq<int>, root: nat, live: set<nat>, n: Numbers,
                  alter: bool, outUse: seq<AtomSet>, b: nat, st: State, st': State, p: Packet)
    requires Swept(g, g1, m, g2, lv, root, live, n, alter, outUse) && b in live && EnteredAs(n, b, st, p)
    requires Agree(st, st', Needed(m, lv, b)) && ExecAll(g[b].stmts, st, p).Some? && !g[b].s.Jmp?
    ensures g[b].s.RetK? && g2[b].s == g[b].s && ExecAll(g2[b].stmts, st', p).Some?
  {
    assert NumberedWell(g, g1, root, live, n, alter, b);
    assert FinishedAt(g1, g2, n, alter, outUse, b) && g1[b] == g[b].(stmts := g1[b].stmts);
    BlockExplained(g, g1, root, live, n, alter, b, st, p);
    FinishedReturn(g1[b], g2[b], EmptiedAt(g1, n, alter, outUse, b), outUse[b], ConstantAt(n, b, A_ATOM),
                   ConstantAt(n, b, X_ATOM), st, st', p);
  }

  /** A sweep preserves every verdict that is not an abort, on every run whose tests of all bits find a bit,
      when no block gives up an atom that matters after it in the numbered graph.  It does not matter which
      live-out sets the sweep went by. */
  lemma {:induction false} SweptRun(g: Graph, g1: Graph, m: Graph, g2: Graph, lv: seq<int>, root: nat, live: set<nat>,
                                    n: Numbers, alter: bool, outUse: seq<AtomSet>, b: nat, st: State, st': State,
                                    p: Packet)
    requires Swept(g, g1, m, g2, lv, root, live, n, alter, outUse) && b in live && EnteredAs(n, b, st, p)
    requires Agree(st, st', Needed(m, lv, b)) && Run(g, lv, b, st, p) != Abort
    requires SparesAllBits(g1, m, lv, outUse, b, st, p)
    ensures Run(g2, lv, b, st', p) == Run(g, lv, b, st, p)
    decreases lv[b]
  {
    var t := ExecAll(g[b].stmts, st, p).value;
    if g[b].s.Jmp? {
      var c := Chosen(g[b], t);
      SweptStep(g, g1, m, g2, lv, root, live, n, alter, outUse, b, st, st', t, c, p);
      SweptRun(g, g1, m, g2, lv, root, live, n, alter, outUse, c, t, ExecAll(g2[b].stmts, st', p).value, p);
    } else {
      SweptLeaf(g, g1, m, g2, lv, root, live, n, alter, outUse, b, st, st', p);
    }
  }

  /** `opt_blk` after the numbering of its statements. */
  method FinishBlock(ghost g: Graph, g1: Graph, n: Numbers, alter: bool, outUse: seq<AtomSet>, b: nat)
    returns (b': Block)
    requires Sized(g, n) && Sized(g1, n) && b < |g1| == |g| == |outUse| && NumberedAt(g, g1, n, alter, b)
    ensures Finished(g1[b], b', EmptiedAt(g1, n, alter, outUse, b), outUse[b],
                     ConstantAt(n, b, A_ATOM), ConstantAt(n, b, X_ATOM))
  {
    if EmptiedAt(g1, n, alter, outUse, b) {
      return g1[b].(stmts := []);
    }
    var b2 := PeepOne(g, g1, n, alter, true, outUse[b], b);
    var ss := OptDeadstores(b2.stmts, b2.s, outUse[b]);
    b' := b2.(stmts := ss);
    assert CleanedBlock(b2, b', outUse[b]);
  }

  lemma FinishedShape(b: Block, b': Block, empty: bool, outUse: AtomSet, ca: Option<Word>, cx: Option<Word>)
    requires Finished(b, b', empty, outUse, ca, cx)
    ensures EdgesWithin(b, b') && |Compact(b'.stmts)| <= |Compact(b.stmts)|
  {
    if !empty {
      var b2 := PeepBlock(b, outUse, ca, cx);
      RewrittenShape(b, b2, true, outUse, ca, cx);
      DeletingShortens(b2.stmts, b'.stmts);
    }
  }

  /** Finish every live block of a numbered graph. */
  method FinishAll(g: Graph, g1: Graph, ghost root: nat, level: seq<int>, ghost live: set<nat>, n: Numbers, alter: bool,
                   outUse: seq<AtomSet>)
    returns (g2: Graph)
    requires Sized(g, n) && |g1| == |g| == |outUse| == |level| && Are(level, live)
    requires forall b {:trigger SweptAt(g, g1, root, live, n, alter, b)} :: b in live ==>
               SweptAt(g, g1, root, live, n, alter, b)
    ensures SweptGraph(g1, g2, live, n, alter, outUse) && Shorter(g1, g2) && Untouched(g1, g2, live)
    ensures forall b {:trigger g2[b]} :: 0 <= b < |g1| ==> EdgesWithin(g1[b], g2[b])
  {
    g2 := g1;
    for b := 0 to |g1|
      invariant |g2| == |g1|
      invariant forall i {:trigger g2[i]} :: 0 <= i < |g1| && (b <= i || level[i] < 0) ==> g2[i] == g1[i]
      invariant forall i {:trigger g2[i]} :: 0 <= i < b ==> EdgesWithin(g1[i], g2[i])
      invariant forall i {:trigger g2[i]} :: 0 <= i < b ==> |Compact(g2[i].stmts)| <= |Compact(g1[i].stmts)|
      invariant forall i {:trigger g2[i]} :: 0 <= i < b && level[i] >= 0 ==>
                  Finished(g1[i], g2[i], EmptiedAt(g1, n, alter, outUse, i), outUse[i], ConstantAt(n, i, A_ATOM),
                           ConstantAt(n, i, X_ATOM))
    {
      if level[b] >= 0 {
        assert SweptAt(g, g1, root, live, n, alter, b);
        var b' := FinishBlock(g, g1, n, alter, outUse, b);
        FinishedShape(g1[b], b', EmptiedAt(g1, n, alter, outUse, b), outUse[b], ConstantAt(n, b, A_ATOM),
                      ConstantAt(n, b, X_ATOM));
        g2 := g2[b := b'];
      }
    }
  }

  lemma {:induction false} NeverStops(vs: VState, ss: seq<Stmt>)
    requires InTable(vs.tbl, vs.val)
    ensures OptStmts(vs, ss, false).BDone?
    decreases ss
  {
    if ss != [] {
      var step := OptStmt(vs, ss[0], false);
      assert step.Done?;
      NeverStops(step.vs, ss[1..]);
    }
  }

  /** Numbering that rewrites nothing folds nothing, so it cannot fail. */
  lemma NeverFails(g: Graph, root: nat, live: set<nat>, b: nat)
    ensures !Fails(g, root, live, false, b)
  {
    if Fails(g, root, live, false, b) {
      var g', n, seen :| FailsAt(g, g', root, live, n, false, seen, b);
      var val :| FailsFrom(g, g', root, live, n, false, seen, b, val);
      NeverStops(VState(n.tbl, val), g[b].stmts);
    }
  }

  lemma {:induction false} Unaltered(vs: VState, ss: seq<Stmt>)
    requires InTable(vs.tbl, vs.val) && OptStmts(vs, ss, false).BDone?
    ensures OptStmts(vs, ss, false).ss == ss
    decreases ss
  {
    if ss != [] {
      var step := OptStmt(vs, ss[0], false);
      FirstStep(vs, ss, false, step, OptStmts(vs, ss, false));
      Unaltered(step.vs, ss[1..]);
      assert step.s == ss[0];
    }
  }

  /** Numbering that rewrites nothing leaves the graph as it is. */
  lemma UnalteredGraph(g: Graph, g1: Graph, root: nat, live: set<nat>, n: Numbers)
    requires Sized(g, n) && Reshaped(g, g1, live) && forall b :: b in live ==> b < |g|
    requires forall b {:trigger SweptAt(g, g1, root, live, n, false, b)} :: b in live ==>
               SweptAt(g, g1, root, live, n, false, b)
    ensures g1 == g
  {
    forall b | 0 <= b < |g| ensures g1[b] == g[b] {
      if b in live {
        assert SweptAt(g, g1, root, live, n, false, b);
        Unaltered(VState(n.starts[b], n.entry[b]), g[b].stmts);
      }
    }
  }

  /** No numbered block `g1[b]` reads an atom that `g[b]` did not. */
  predicate NoNewReads(g: Graph, g1: Graph, live: set<nat>, n: Numbers, alter: bool, outUse: seq<AtomSet>) {
    && Sized(g1, n) && |g| == |g1| == |outUse|
    && var m := Middle(g1, n, alter, outUse);
       forall b {:trigger m[b]} :: b in live && b < |g| ==>
         LiveIn(m[b].stmts, m[b].s, outUse[b]) <= LiveIn(g[b].stmts, g[b].s, outUse[b])
  }

  /** If no block reads more than before, no more is live than before. */
  lemma {:induction false} NoNewNeeds(g: Graph, g1: Graph, m: Graph, lv: seq<int>, live: set<nat>, n: Numbers,
                                      alter: bool, inUse: seq<AtomSet>, outUse: seq<AtomSet>, b: nat)
    requires Leveled(g, lv) && Leveled(m, lv) && Solves(g, lv, inUse, outUse) && SuccClosed(g, live) && SameShape(g, g1)
    requires NoNewReads(g, g1, live, n, alter, outUse) && m == Middle(g1, n, alter, outUse)
    requires (forall q :: q in live ==> lv[q] >= 0) && b in live
    ensures Needed(m, lv, b) <= inUse[b] && NeededAfter(m, lv, b) <= outUse[b]
    decreases lv[b]
  {
    assert SolvesAt(g, inUse, outUse, b) && g1[b] == g[b].(stmts := g1[b].stmts);
    if g[b].s.Jmp? {
      NoNewNeeds(g, g1, m, lv, live, n, alter, inUse, outUse, g[b].jt);
      NoNewNeeds(g, g1, m, lv, live, n, alter, inUse, outUse, g[b].jf);
    }
    LiveInGrows(m[b].stmts, m[b].s, NeededAfter(m, lv, b), outUse[b]);
    assert LiveIn(m[b].stmts, m[b].s, outUse[b]) <= inUse[b];
  }

  /** Then nothing that matters is lost. */
  lemma NoNewReadsSpares(g: Graph, g1: Graph, lv: seq<int>, live: set<nat>, n: Numbers, alter: bool,
                         inUse: seq<AtomSet>, outUse: seq<AtomSet>)
    requires Leveled(g, lv) && Leveled(g1, lv) && Solves(g, lv, inUse, outUse) && SuccClosed(g, live)
    requires SameShape(g, g1)
    requires NoNewReads(g, g1, live, n, alter, outUse) && forall q :: q in live ==> lv[q] >= 0
    ensures NothingLost(g1, lv, live, n, alter, outUse)
  {
    var m := Middle(g1, n, alter, outUse);
    MiddleLeveled(g1, lv, n, alter, outUse);
    forall b | b in live && b < |g1| ensures SparesAt(g1, m, lv, n, alter, outUse, b) {
      NoNewNeeds(g, g1, m, lv, live, n, alter, inUse, outUse, b);
      assert SolvesAt(g, inUse, outUse, b);
      LostIsDead(g1[b], outUse[b], ConstantAt(n, b, X_ATOM));
    }
  }

  /** Numbering that rewrites nothing makes no block read more. */
  lemma UnalteredReads(g: Graph, g1: Graph, root: nat, live: set<nat>, n: Numbers, outUse: seq<AtomSet>)
    requires Sized(g, n) && |g1| == |g| == |outUse| && forall b :: b in live ==> b < |g|
    requires forall b {:trigger SweptAt(g, g1, root, live, n, false, b)} :: b in live ==>
               SweptAt(g, g1, root, live, n, false, b)
    ensures NoNewReads(g, g1, live, n, false, outUse)
  {
    var m := Middle(g1, n, false, outUse);
    forall b | b in live
      ensures LiveIn(m[b].stmts, m[b].s, outUse[b]) <= LiveIn(g[b].stmts, g[b].s, outUse[b])
    {
      assert SweptAt(g, g1, root, live, n, false, b);
      Unaltered(VState(n.starts[b], n.entry[b]), g[b].stmts);
    }
  }
}
