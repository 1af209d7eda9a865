/** The peephole rewrites on a whole graph that has been numbered and whose liveness is known. */
module PeepholePass {
  import opened Collections
  import opened Machine
  import opened Atoms
  import opened Levels
  import opened Layout
  import opened Liveness
  import opened ValueNumbers
  import opened Numbering
  import opened NumberingPass
  import opened Peephole

  /** A statement deleted by numbering leaves the numbers as they were. */
  lemma DeletedKeeps(vs: VState, s: Stmt, alter: bool)
    requires InTable(vs.tbl, vs.val)
    ensures var r := OptStmt(vs, s, alter); r.Done? && r.s == Nop ==> r.vs.val == vs.val
  {
  }

  lemma FirstDeleted(s: Stmt, rest: seq<Stmt>)
    ensures NopsIn([s] + rest, 0, |rest| + 1) <==> s == Nop && NopsIn(rest, 0, |rest|)
  {
    var ss := [s] + rest;
    assert forall k :: 0 <= k < |rest| ==> rest[k] == ss[k + 1];
    assert ss[0] == s;
  }

  lemma {:induction false} AllDeletedKeeps(vs: VState, ss: seq<Stmt>, alter: bool)
    requires InTable(vs.tbl, vs.val)
    ensures var r := OptStmts(vs, ss, alter); r.BDone? && NopsIn(r.ss, 0, |r.ss|) ==> r.vs.val == vs.val
    decreases ss
  {
    if ss != [] && OptStmt(vs, ss[0], alter).Done? {
      DeletedKeeps(vs, ss[0], alter);
      var step := OptStmt(vs, ss[0], alter);
      AllDeletedKeeps(step.vs, ss[1..], alter);
      var r := OptStmts(step.vs, ss[1..], alter);
      if r.BDone? {
        FirstDeleted(step.s, r.ss);
      }
    }
  }

  lemma AluKNotConst(vs: VState, op: AluOp, k: Word, alter: bool)
    requires InTable(vs.tbl, vs.val)
    ensures var r := OptAluK(vs, op, k, alter); r.Done? && IsAlu(r.s) ==> !IsConst(r.vs.tbl, r.vs.val[A_ATOM])
  {
  }

  lemma AluXNotConst(vs: VState, op: AluOp, alter: bool)
    requires InTable(vs.tbl, vs.val)
    ensures var r := OptAluX(vs, op, alter); r.Done? && IsAlu(r.s) ==> !IsConst(r.vs.tbl, r.vs.val[A_ATOM])
  {
  }

  lemma OthersNotAlu(vs: VState, s: Stmt, alter: bool)
    requires InTable(vs.tbl, vs.val) && !IsAlu(s)
    ensures var r := OptStmt(vs, s, alter); r.Done? ==> !IsAlu(r.s)
  {
  }

  /** Numbering folds arithmetic on constants, so arithmetic that stays has no constant result. */
  lemma AluNotConst(vs: VState, s: Stmt, alter: bool)
    requires InTable(vs.tbl, vs.val)
    ensures var r := OptStmt(vs, s, alter); r.Done? && IsAlu(r.s) ==> !IsConst(r.vs.tbl, r.vs.val[A_ATOM])
  {
    match s
    case AluK(op, k) => AluKNotConst(vs, op, k, alter);
    case AluX(op) => AluXNotConst(vs, op, alter);
    case _ => OthersNotAlu(vs, s, alter);
  }

  lemma AluLastBelow(s: Stmt, rest: seq<Stmt>, j: nat)
    requires AluLast([s] + rest, j)
    ensures if j == 0 then IsAlu(s) && NopsIn(rest, 0, |rest|) else AluLast(rest, j - 1)
  {
    assert forall k :: 0 <= k < |rest| ==> rest[k] == ([s] + rest)[k + 1];
  }

  lemma FirstStep(vs: VState, ss: seq<Stmt>, alter: bool, step: Step, r: BlockStep)
    requires InTable(vs.tbl, vs.val) && ss != [] && r == OptStmts(vs, ss, alter) && r.BDone?
    requires step == OptStmt(vs, ss[0], alter)
    ensures step.Done? && InTable(step.vs.tbl, step.vs.val)
    ensures var rest := OptStmts(step.vs, ss[1..], alter); rest.BDone? && r.vs == rest.vs && r.ss == [step.s] + rest.ss
  {
  }

  lemma FirstAluLast(vs: VState, ss: seq<Stmt>, alter: bool)
    requires InTable(vs.tbl, vs.val) && OptStmts(vs, ss, alter).BDone? && AluLast(OptStmts(vs, ss, alter).ss, 0)
    ensures var r := OptStmts(vs, ss, alter); !IsConst(r.vs.tbl, r.vs.val[A_ATOM])
  {
    var step := OptStmt(vs, ss[0], alter);
    FirstStep(vs, ss, alter, step, OptStmts(vs, ss, alter));
    var rest := OptStmts(step.vs, ss[1..], alter);
    AluLastBelow(step.s, rest.ss, 0);
    AluNotConst(vs, ss[0], alter);
    AllDeletedKeeps(step.vs, ss[1..], alter);
    StaysNotConst(step.vs, rest.vs);
  }

  lemma StaysNotConst(vs: VState, vs': VState)
    requires InTable(vs.tbl, vs.val) && vs.tbl <= vs'.tbl && vs'.val == vs.val
    requires !IsConst(vs.tbl, vs.val[A_ATOM])
    ensures !IsConst(vs'.tbl, vs'.val[A_ATOM])
  {
  }

  /** If A has a constant number on exit, the last statement that stays is not arithmetic. */
  lemma {:induction false} ConstNotAluLast(vs: VState, ss: seq<Stmt>, alter: bool, j: nat)
    requires InTable(vs.tbl, vs.val) && OptStmts(vs, ss, alter).BDone? && AluLast(OptStmts(vs, ss, alter).ss, j)
    ensures var r := OptStmts(vs, ss, alter); !IsConst(r.vs.tbl, r.vs.val[A_ATOM])
    decreases ss
  {
    if j == 0 {
      FirstAluLast(vs, ss, alter);
    } else {
      var step := OptStmt(vs, ss[0], alter);
      RestAluLast(vs, ss, alter, j, step);
      ConstNotAluLast(step.vs, ss[1..], alter, j - 1);
    }
  }

  lemma RestAluLast(vs: VState, ss: seq<Stmt>, alter: bool, j: nat, step: Step)
    requires InTable(vs.tbl, vs.val) && OptStmts(vs, ss, alter).BDone? && AluLast(OptStmts(vs, ss, alter).ss, j)
    requires j > 0 && ss != [] && step == OptStmt(vs, ss[0], alter)
    ensures step.Done? && InTable(step.vs.tbl, step.vs.val)
    ensures var rest := OptStmts(step.vs, ss[1..], alter);
            rest.BDone? && AluLast(rest.ss, j - 1) && rest.vs == OptStmts(vs, ss, alter).vs
  {
    FirstStep(vs, ss, alter, step, OptStmts(vs, ss, alter));
    AluLastBelow(step.s, OptStmts(step.vs, ss[1..], alter).ss, j);
  }

  /** The constants that value numbering offers for an atom on exit from a block. */
  function ConstantAt(n: Numbers, b: nat, a: Atom): Option<Word>
    requires b < |n.exit|
  {
    var v := n.exit[b][a];
    if 0 < v <= |n.tbl| && IsConst(n.tbl, v) then Some(ConstOf(n.tbl, v)) else None
  }

  /** X's value survives to the end of a block whose last statement computes with it. */
  lemma {:induction false} LastXLive(ss: seq<Stmt>, s: Branch, out: AtomSet, j: nat, st1: State, st2: State, p: Packet)
    requires AluLast(ss, j) && ss[j].AluX? && Agree(st1, st2, LiveIn(ss, s, out))
    requires ExecAll(ss, st1, p).Some? && ExecAll(ss, st2, p).Some?
    ensures ExecAll(ss, st1, p).value[X_ATOM] == ExecAll(ss, st2, p).value[X_ATOM]
    decreases j
  {
    ExecFrame(ss[0], st1, st2, p);
    var t1, t2 := Exec(ss[0], st1, p).value, Exec(ss[0], st2, p).value;
    if j == 0 {
      assert X_ATOM in AtomUse(ss[0]) && AtomDef(ss[0]) == Some(A_ATOM);
      StepTo(ss, 0, |ss|, st1, p);
      StepTo(ss, 0, |ss|, st2, p);
      assert ss[0..] == ss && ss[|ss|..] == [];
    } else {
      assert ss[1..][j - 1] == ss[j];
      assert forall k :: j <= k < |ss[1..]| ==> ss[1..][k] == ss[k + 1];
      LastXLive(ss[1..], s, out, j - 1, t1, t2, p);
    }
  }

  /** Block `b'` is `b` after `opt_peep` with these analyses. */
  ghost predicate Peeped(b: Block, b': Block, outUse: AtomSet, ca: Option<Word>, cx: Option<Word>) {
    if !b.s.Jmp? then b' == b
    else
      b' == PeepBlock(b, outUse, ca, cx) && PeepShape(b, b') &&
      (FreshX(b.stmts, b.s, outUse, 0) ==> forall st: State, p: Packet ::
         ExecAll(b.stmts, st, p).Some? && Known(b.stmts, ca, cx, ExecAll(b.stmts, st, p).value) ==>
           PeepKeeps(b, b', outUse, PeepLost(b, outUse, cx), ExecAll(b.stmts, st, p).value, ExecAll(b'.stmts, st, p)))
  }

  ghost predicate PeepedGraph(g: Graph, g': Graph, live: set<nat>, n: Numbers, outUse: seq<AtomSet>) {
    && |g'| == |g| == |outUse| == |n.exit|
    && forall b {:trigger g'[b]} :: b in live && b < |g| ==>
         Peeped(g[b], g'[b], outUse[b], ConstantAt(n, b, A_ATOM), ConstantAt(n, b, X_ATOM))
  }

  /** X is dead after every constant-index sequence of a live block. */
  ghost predicate AllFreshX(g: Graph, live: set<nat>, outUse: seq<AtomSet>) {
    |outUse| == |g| && forall b {:trigger g[b]} :: b in live && b < |g| ==> FreshX(g[b].stmts, g[b].s, outUse[b], 0)
  }

  /** No test of all bits among the blocks `h` finds A = 0 and different targets where the run of `g` comes to
      it. */
  predicate SparesAllBits(g: Graph, h: Graph, lv: seq<int>, outUse: seq<AtomSet>, b: nat, st: State, p: Packet)
    requires Leveled(g, lv) && b < |g| == |h| == |outUse| && lv[b] >= 0
    decreases lv[b]
  {
    match ExecAll(g[b].stmts, st, p)
    case None => true
    case Some(t) =>
      g[b].s.Jmp? ==>
        && !(TestsAllBits(h[b], outUse[b]) && t[A_ATOM] == 0 && h[b].jt != h[b].jf)
        && SparesAllBits(g, h, lv, outUse, if Taken(g[b].s, t) then g[b].jt else g[b].jf, t, p)
  }

  /** Without tests of all bits among the blocks of `h`. */
  lemma {:induction false} NoMasks(g: Graph, h: Graph, lv: seq<int>, live: set<nat>, outUse: seq<AtomSet>, b: nat,
                                   st: State, p: Packet)
    requires Leveled(g, lv) && SuccClosed(g, live) && b in live && b < |g| == |h| == |outUse| && lv[b] >= 0
    requires forall i :: i in live && i < |h| ==> !TestsAllBits(h[i], outUse[i])
    ensures SparesAllBits(g, h, lv, outUse, b, st, p)
    decreases lv[b]
  {
    if ExecAll(g[b].stmts, st, p).Some? && g[b].s.Jmp? {
      var t := ExecAll(g[b].stmts, st, p).value;
      NoMasks(g, h, lv, live, outUse, if Taken(g[b].s, t) then g[b].jt else g[b].jf, t, p);
    }
  }

  lemma ExitKnown(n: Numbers, b: nat, ss: seq<Stmt>, t: State, p: Packet)
    requires b < |n.exit| && Proper(n.tbl) && InTable(n.tbl, n.exit[b]) && Explains(n.tbl, n.exit[b], t, p)
    ensures Known(ss, ConstantAt(n, b, A_ATOM), ConstantAt(n, b, X_ATOM), t)
  {
  }

  /** One block: entered in states that agree on what it needs to leave `on` right, it leaves in states that
      agree on `on`, by the same edge, if the rewrites give up nothing of `on`. */
  lemma PeepedBlock(b: Block, b': Block, outUse: AtomSet, on: AtomSet, ca: Option<Word>, cx: Option<Word>,
                    st: State, st': State, p: Packet)
    requires b.s.Jmp? && Peeped(b, b', outUse, ca, cx) && FreshX(b.stmts, b.s, outUse, 0)
    requires on !! PeepLost(b, outUse, cx)
    requires Agree(st, st', LiveIn(b.stmts, b.s, on)) && ExecAll(b.stmts, st, p).Some?
    requires Known(b.stmts, ca, cx, ExecAll(b.stmts, st, p).value)
    requires !(TestsAllBits(b, outUse) && ExecAll(b.stmts, st, p).value[A_ATOM] == 0 && b.jt != b.jf)
    ensures ExecAll(b'.stmts, st', p).Some? && b'.s.Jmp?
    ensures Agree(ExecAll(b.stmts, st, p).value, ExecAll(b'.stmts, st', p).value, on)
    ensures Chosen(b', ExecAll(b'.stmts, st', p).value) == Chosen(b, ExecAll(b.stmts, st, p).value)
  {
    LiveExec(b.stmts, b.s, on, st, st', p);
    var t, t1 := ExecAll(b.stmts, st, p).value, ExecAll(b.stmts, st', p).value;
    if XLast(b.stmts) {
      var j :| 0 <= j < |b.stmts| && AluLast(b.stmts, j) && b.stmts[j].AluX?;
      LastXLive(b.stmts, b.s, on, j, st, st', p);
    }
    assert A_ATOM in JumpUse(b.s);
    assert Known(b.stmts, ca, cx, t1);
    var t2 := ExecAll(b'.stmts, st', p).value;
    assert PeepKeeps(b, b', outUse, PeepLost(b, outUse, cx), t1, Some(t2));
    assert Chosen(b, t1) == Chosen(b, t);
    forall a: Atom | a in on ensures t[a] == t2[a] {
      assert t[a] == t1[a];
    }
  }

  /** Numbering and rewriting the statements (`g1`), then peephole rewriting against exact liveness
      (`g2`), preserves every verdict that is not an abort, on every run whose tests of all bits find a
      bit. */
  lemma {:induction false} PeepedRun(g: Graph, g1: Graph, g2: Graph, lv: seq<int>, root: nat, live: set<nat>,
                                     n: Numbers, alter: bool, inUse: seq<AtomSet>, outUse: seq<AtomSet>, b: nat,
                                     st: State, st': State, p: Packet)
    requires Leveled(g, lv) && Leveled(g1, lv) && Leveled(g2, lv) && Numbered(g, g1, root, live, n, alter)
    requires (forall q :: q in live ==> lv[q] >= 0) && forall q: nat :: q in live ==> !BlockRel(g)(q, root)
    requires Solves(g1, lv, inUse, outUse) && ReturnsCovered(g1, lv)
    requires PeepedGraph(g1, g2, live, n, outUse) && AllFreshX(g1, live, outUse)
    requires b in live && InTable(n.tbl, n.entry[b]) && Explains(n.tbl, n.entry[b], st, p)
    requires Agree(st, st', inUse[b]) && Run(g, lv, b, st, p) != Abort && SparesAllBits(g1, g1, lv, outUse, b, st, p)
    ensures Run(g2, lv, b, st', p) == Run(g, lv, b, st, p)
    decreases lv[b]
  {
    assert NumberedWell(g, g1, root, live, n, alter, b);
    assert SolvesAt(g1, inUse, outUse, b);
    BlockExplained(g, g1, root, live, n, alter, b, st, p);
    var t := ExecAll(g[b].stmts, st, p).value;
    if g[b].s.Jmp? {
      ExitKnown(n, b, g1[b].stmts, t, p);
      LostIsDead(g1[b], outUse[b], ConstantAt(n, b, X_ATOM));
      PeepedBlock(g1[b], g2[b], outUse[b], outUse[b], ConstantAt(n, b, A_ATOM), ConstantAt(n, b, X_ATOM), st, st', p);
      var c := Chosen(g1[b], t);
      assert BlockRel(g)(b, c);
      JoinExplained(g, g1, root, live, n, alter, b, c, t, p);
      var t2 := ExecAll(g2[b].stmts, st', p).value;
      assert Agree(t, t2, inUse[c]);
      PeepedRun(g, g1, g2, lv, root, live, n, alter, inUse, outUse, c, t, t2, p);
    } else {
      assert g2[b] == g1[b];
      LeafAgrees(g1[b], st, st', p);
    }
  }

  /** The constants that numbering offers do not meet arithmetic at the end of the block. */
  lemma ConstantSpares(g: Graph, g1: Graph, n: Numbers, alter: bool, b: nat)
    requires Sized(g, n) && |g1| == |g| && b < |g| && NumberedAt(g, g1, n, alter, b)
    ensures ConstantAt(n, b, A_ATOM).Some? ==> forall j: nat :: !AluLast(g1[b].stmts, j)
  {
    var vs := VState(n.starts[b], n.entry[b]);
    forall j: nat | AluLast(g1[b].stmts, j) ensures ConstantAt(n, b, A_ATOM).None? {
      ConstNotAluLast(vs, g[b].stmts, alter, j);
      assert InTable(n.ends[b], n.exit[b]);
    }
  }

  /** Rewriting keeps edges among those there were. */
  predicate EdgesWithin(b: Block, b': Block) {
    if b.s.Jmp? then b'.s.Jmp? && b'.jt in {b.jt, b.jf} && b'.jf in {b.jt, b.jf} else b'.s == b.s
  }

  ghost predicate Rewritten(b: Block, b': Block, on: bool, outUse: AtomSet, ca: Option<Word>, cx: Option<Word>) {
    if on then Peeped(b, b', outUse, ca, cx) else b' == b
  }

  lemma RewrittenShape(b: Block, b': Block, on: bool, outUse: AtomSet, ca: Option<Word>, cx: Option<Word>)
    requires Rewritten(b, b', on, outUse, ca, cx)
    ensures EdgesWithin(b, b') && |Compact(b'.stmts)| <= |Compact(b.stmts)|
  {
    DeletingShortens(b.stmts, b'.stmts);
  }

  method PeepOne(ghost g: Graph, g1: Graph, n: Numbers, ghost alter: bool, on: bool, outUse: AtomSet, b: nat)
    returns (b': Block)
    requires Sized(g, n) && |g1| == |g| && b < |g| && (on ==> NumberedAt(g, g1, n, alter, b))
    ensures Rewritten(g1[b], b', on, outUse, ConstantAt(n, b, A_ATOM), ConstantAt(n, b, X_ATOM))
  {
    b' := g1[b];
    if on && g1[b].s.Jmp? {
      ConstantSpares(g, g1, n, alter, b);
      b' := OptPeep(g1[b], outUse, ConstantAt(n, b, A_ATOM), ConstantAt(n, b, X_ATOM));
    }
  }

  /** `opt_peep` on every live block of a numbered graph. */
  method PeepAll(g: Graph, g1: Graph, ghost root: nat, level: seq<int>, ghost live: set<nat>, n: Numbers,
                 ghost alter: bool, outUse: seq<AtomSet>)
    returns (g2: Graph)
    requires Sized(g, n) && |g1| == |g| == |outUse| == |level| && Are(level, live)
    requires forall b {:trigger SweptAt(g, g1, root, live, n, alter, b)} :: b in live ==>
               SweptAt(g, g1, root, live, n, alter, b)
    ensures PeepedGraph(g1, g2, live, n, outUse) && Shorter(g1, g2) && Untouched(g1, g2, live)
    ensures forall b {:trigger g2[b]} :: 0 <= b < |g1| ==> EdgesWithin(g1[b], g2[b])
  {
    g2 := [];
    for b := 0 to |g1|
      invariant |g2| == b
      invariant forall i {:trigger g2[i]} :: 0 <= i < b ==>
                  Rewritten(g1[i], g2[i], level[i] >= 0, outUse[i], ConstantAt(n, i, A_ATOM), ConstantAt(n, i, X_ATOM))
    {
      assert level[b] >= 0 ==> SweptAt(g, g1, root, live, n, alter, b);
      var b' := PeepOne(g, g1, n, alter, level[b] >= 0, outUse[b], b);
      g2 := g2 + [b'];
    }
    forall b | 0 <= b < |g1|
      ensures EdgesWithin(g1[b], g2[b]) && |Compact(g2[b].stmts)| <= |Compact(g1[b].stmts)|
    {
      RewrittenShape(g1[b], g2[b], level[b] >= 0, outUse[b], ConstantAt(n, b, A_ATOM), ConstantAt(n, b, X_ATOM));
    }
  }
}
