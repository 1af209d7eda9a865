/** The sweep judges dead stores by the liveness of the graph before numbering.  When numbering lets a block
    take X from its predecessor, the predecessor's load of X has already been deleted.  The filter
    "ether[k] = j or ether[k] > k"  shows it, in the form it has when the first turn of the second loop of
    the optimizer comes to it, without the statements already deleted; its bytes are in slots `m0` and `m1`. */
module StaleLiveness {
  import opened Collections
  import opened Machine
  import opened Atoms
  import opened Levels
  import opened Liveness
  import opened DeadStores
  import opened ValueNumbers
  import opened Numbering
  import opened Peephole
  import opened PeepholePass
  import opened Sweep
  import opened Optimizer

  function Equal(k: Word, j: Word, m0: Slot): Block {
    Block([LdxImm(k), LdInd(B, 0), St(m0), LdMem(m0)], Jmp(Jeq, FromK, j), 2, 1)
  }

  function Greater(k: Word, m1: Slot): Block {
    Block([LdxImm(k), LdInd(B, 0), St(m1), LdxImm(k), LdMem(m1)], Jmp(Jgt, FromX, 0), 2, 3)
  }

  function Filter(k: Word, j: Word, snaplen: Word, m0: Slot, m1: Slot): Graph {
    [Equal(k, j, m0), Greater(k, m1), Block([], RetK(snaplen), 0, 0), Block([], RetK(0), 0, 0)]
  }

  lemma OptCons(vs: VState, s: Stmt, rest: seq<Stmt>)
    requires InTable(vs.tbl, vs.val) && OptStmt(vs, s, true).Done?
    ensures var step := OptStmt(vs, s, true);
            var r := OptStmts(step.vs, rest, true);
            OptStmts(vs, [s] + rest, true) == if r.BDone? then BDone(r.vs, [step.s] + r.ss) else BError
  {
    assert ([s] + rest)[1..] == rest;
  }

  lemma LiveCons(s: Stmt, rest: seq<Stmt>, br: Branch, out: AtomSet)
    ensures LiveIn([s] + rest, br, out) == (LiveIn(rest, br, out) - DefSet(s)) + AtomUse(s)
  {
    assert ([s] + rest)[1..] == rest;
  }

  predicate HasX(vs: VState, k: Word) {
    InTable(vs.tbl, vs.val) && vs.val[X_ATOM] > 0 && vs.tbl[vs.val[X_ATOM] - 1] == KImm(k)
  }

  /** X and A have the numbers of the constant and of the byte. */
  predicate Has(vs: VState, k: Word) {
    HasX(vs, k) && vs.val[A_ATOM] > 0 && vs.tbl[vs.val[A_ATOM] - 1] == KAbs(B, k)
  }

  lemma LoadsX(vs: VState, k: Word)
    requires InTable(vs.tbl, vs.val) && vs.val[X_ATOM] == 0
    ensures var r := OptStmt(vs, LdxImm(k), true);
            r.Done? && r.s == LdxImm(k) && HasX(r.vs, k) && r.vs.val == vs.val[X_ATOM := r.vs.val[X_ATOM]]
  {
  }

  lemma LoadsByte(vs: VState, k: Word)
    requires HasX(vs, k) && vs.val[A_ATOM] == 0
    ensures var r := OptStmt(vs, LdInd(B, 0), true);
            r.Done? && r.s == LdAbs(B, k) && Has(r.vs, k) && r.vs.val == vs.val[A_ATOM := r.vs.val[A_ATOM]]
  {
    assert Offset(k, 0) == k;
  }

  /** What has just been stored need not be loaded again. */
  lemma StoreLoad(vs: VState, k: Word, m: Slot, ss: seq<Stmt>, r: BlockStep)
    requires Has(vs, k) && vs.val[m] == 0 && ss == [St(m)] + ([LdMem(m)] + []) && r == OptStmts(vs, ss, true)
    ensures r.BDone? && r.ss == [St(m), Nop] && Has(r.vs, k) && r.vs.val == vs.val[m := vs.val[A_ATOM]]
  {
    var v1 := OptStmt(vs, St(m), true).vs;
    assert OptStmt(v1, LdMem(m), true) == Done(v1, Nop);
    OptCons(v1, LdMem(m), []);
    OptCons(vs, St(m), [LdMem(m)] + []);
  }

  lemma NumberLoad(vs: VState, k: Word, m: Slot, other: Slot, rest: seq<Stmt>, ss: seq<Stmt>, r: BlockStep)
    requires HasX(vs, k) && vs.val[A_ATOM] == 0 && vs.val[m] == 0 && m != other
    requires rest == [St(m)] + ([LdMem(m)] + []) && ss == [LdInd(B, 0)] + rest && r == OptStmts(vs, ss, true)
    ensures r.BDone? && r.ss == [LdAbs(B, k), St(m), Nop] && Has(r.vs, k) && r.vs.val[other] == vs.val[other]
  {
    LoadsByte(vs, k);
    var v2 := OptStmt(vs, LdInd(B, 0), true).vs;
    StoreLoad(v2, k, m, rest, OptStmts(v2, rest, true));
    OptCons(vs, LdInd(B, 0), rest);
  }

  /** The first test: X is loaded, and the load becomes absolute. */
  lemma NumberEqual(vs: VState, v1: VState, k: Word, m: Slot, other: Slot, tail: seq<Stmt>, rest: seq<Stmt>,
                    ss: seq<Stmt>, r: BlockStep)
    requires InTable(vs.tbl, vs.val) && OptStmt(vs, LdxImm(k), true) == Done(v1, LdxImm(k))
    requires HasX(v1, k) && v1.val[A_ATOM] == 0 && v1.val[m] == 0 && m != other
    requires tail == [St(m)] + ([LdMem(m)] + []) && rest == [LdInd(B, 0)] + tail && ss == [LdxImm(k)] + rest
    requires r == OptStmts(vs, ss, true)
    ensures r.BDone? && r.ss == [LdxImm(k)] + [LdAbs(B, k), St(m), Nop] && Has(r.vs, k)
    ensures r.vs.val[other] == v1.val[other]
  {
    var r1 := OptStmts(v1, rest, true);
    NumberLoad(v1, k, m, other, tail, rest, r1);
    OptCons(vs, LdxImm(k), rest);
    assert r == BDone(r1.vs, [LdxImm(k)] + r1.ss);
  }

  /** What X and A already hold is not loaded again. */
  lemma Again(vs: VState, k: Word)
    requires Has(vs, k) && Proper(vs.tbl)
    ensures OptStmt(vs, LdxImm(k), true) == Done(vs, Nop) && OptStmt(vs, LdInd(B, 0), true) == Done(vs, Nop)
  {
    assert Offset(k, 0) == k;
    assert Intern(vs.tbl, KImm(k)) == (vs.tbl, vs.val[X_ATOM]);
    assert Intern(vs.tbl, KAbs(B, k)) == (vs.tbl, vs.val[A_ATOM]);
  }

  lemma ReloadAgain(vs: VState, k: Word, m: Slot, last: seq<Stmt>, ss: seq<Stmt>, r: BlockStep)
    requires Has(vs, k) && Proper(vs.tbl) && vs.val[m] == vs.val[A_ATOM]
    requires last == [LdMem(m)] + [] && ss == [LdxImm(k)] + last && r == OptStmts(vs, ss, true)
    ensures r.BDone? && r.vs == vs
  {
    Again(vs, k);
    assert OptStmt(vs, LdMem(m), true) == Done(vs, Nop);
    OptCons(vs, LdMem(m), []);
    OptCons(vs, LdxImm(k), last);
  }

  lemma StoreAgain(vs: VState, v1: VState, k: Word, m: Slot, last: seq<Stmt>, tail: seq<Stmt>, ss: seq<Stmt>,
                   r: BlockStep)
    requires Has(vs, k) && OptStmt(vs, St(m), true) == Done(v1, St(m))
    requires Has(v1, k) && Proper(v1.tbl) && v1.val[m] == v1.val[A_ATOM]
    requires last == [LdMem(m)] + [] && tail == [LdxImm(k)] + last && ss == [St(m)] + tail
    requires r == OptStmts(vs, ss, true)
    ensures r.BDone? && r.vs == v1
  {
    ReloadAgain(v1, k, m, last, tail, OptStmts(v1, tail, true));
    OptCons(vs, St(m), tail);
  }

  lemma LoadAgain(vs: VState, v1: VState, k: Word, rest: seq<Stmt>, next: seq<Stmt>, ss: seq<Stmt>, r: BlockStep)
    requires Has(vs, k) && Proper(vs.tbl) && r == OptStmts(vs, ss, true)
    requires next == [LdInd(B, 0)] + rest && ss == [LdxImm(k)] + next
    requires OptStmts(vs, rest, true).BDone? && OptStmts(vs, rest, true).vs == v1
    ensures r.BDone? && r.vs == v1
  {
    Again(vs, k);
    OptCons(vs, LdInd(B, 0), rest);
    OptCons(vs, LdxImm(k), next);
  }

  lemma StoreNumbered(vs: VState, v1: VState, k: Word, m: Slot)
    requires Has(vs, k) && Proper(vs.tbl) && vs.val[m] == 0 && v1 == vs.(val := vs.val[m := vs.val[A_ATOM]])
    ensures OptStmt(vs, St(m), true) == Done(v1, St(m)) && Has(v1, k) && v1.val[m] == v1.val[A_ATOM]
  {
  }

  /** The second test leaves X and A with the numbers it found them with. */
  lemma NumberGreater(vs: VState, v1: VState, k: Word, m: Slot, last: seq<Stmt>, tail: seq<Stmt>, rest: seq<Stmt>,
                      next: seq<Stmt>, ss: seq<Stmt>, r: BlockStep)
    requires Has(vs, k) && Proper(vs.tbl) && vs.val[m] == 0 && v1 == vs.(val := vs.val[m := vs.val[A_ATOM]])
    requires last == [LdMem(m)] + [] && tail == [LdxImm(k)] + last && rest == [St(m)] + tail
    requires next == [LdInd(B, 0)] + rest && ss == [LdxImm(k)] + next && r == OptStmts(vs, ss, true)
    ensures r.BDone? && r.vs == v1
  {
    StoreNumbered(vs, v1, k, m);
    StoreAgain(vs, v1, k, m, last, tail, rest, OptStmts(vs, rest, true));
    LoadAgain(vs, v1, k, rest, next, ss, r);
  }

  /** The statements of the two tests. */
  predicate Tests(ss0: seq<Stmt>, ss1: seq<Stmt>, k: Word, m0: Slot, m1: Slot) {
    && ss0 == [LdxImm(k)] + ([LdInd(B, 0)] + ([St(m0)] + ([LdMem(m0)] + [])))
    && ss1 == [LdxImm(k)] + ([LdInd(B, 0)] + ([St(m1)] + ([LdxImm(k)] + ([LdMem(m1)] + []))))
  }

  lemma LoadsNumbered(g: Graph, g1: Graph, n: Numbers, k: Word, m: Slot, other: Slot, ss: seq<Stmt>, tail: seq<Stmt>,
                      rest: seq<Stmt>)
    requires Sized(g, n) && 0 < |g| == |g1| && g[0].stmts == ss && NumberedAt(g, g1, n, true, 0) && m != other
    requires tail == [St(m)] + ([LdMem(m)] + []) && rest == [LdInd(B, 0)] + tail && ss == [LdxImm(k)] + rest
    requires forall a: Atom :: n.entry[0][a] == 0
    ensures g1[0] == g[0].(stmts := [LdxImm(k)] + [LdAbs(B, k), St(m), Nop])
    ensures Has(VState(n.ends[0], n.exit[0]), k) && n.exit[0][other] == 0
  {
    var vs := VState(n.starts[0], n.entry[0]);
    LoadsX(vs, k);
    NumberEqual(vs, OptStmt(vs, LdxImm(k), true).vs, k, m, other, tail, rest, ss, OptStmts(vs, ss, true));
  }

  lemma OnlyPredecessor(g: Graph, live: set<nat>, n: Numbers)
    requires Sized(g, n) && 1 < |g| && (forall q :: q in live ==> q < |g|) && Joins(g, 0, live, n, 1)
    requires forall q: nat :: q in live && BlockRel(g)(q, 1) ==> q == 0
    ensures n.entry[1] == n.exit[0]
  {
    forall a: Atom ensures n.entry[1][a] == n.exit[0][a] {
      assert PredsLeave(g, live, n, 1, a, n.exit[0][a]);
    }
  }

  lemma HasStill(tbl: Table, before: Table, after: Table, val: Vals, k: Word)
    requires before <= tbl && after <= tbl && Has(VState(before, val), k) && InTable(after, val)
    ensures Has(VState(after, val), k)
  {
  }

  lemma SecondEntered(g: Graph, g1: Graph, live: set<nat>, n: Numbers, k: Word)
    requires Numbered(g, g1, 0, live, n, true) && 0 in live && 1 in live
    requires forall q: nat :: q in live && BlockRel(g)(q, 1) ==> q == 0
    requires Has(VState(n.ends[0], n.exit[0]), k)
    ensures Has(VState(n.starts[1], n.entry[1]), k) && n.entry[1] == n.exit[0] && Proper(n.starts[1])
  {
    assert NumberedWell(g, g1, 0, live, n, true, 0) && NumberedWell(g, g1, 0, live, n, true, 1);
    OnlyPredecessor(g, live, n);
    HasStill(n.tbl, n.ends[0], n.starts[1], n.entry[1], k);
    ProperPrefix(n.starts[1], n.tbl);
  }

  lemma SecondNumbered(g: Graph, g1: Graph, n: Numbers, k: Word, m: Slot)
    requires Sized(g, n) && 1 < |g| == |g1| && NumberedAt(g, g1, n, true, 1)
    requires g[1].stmts == [LdxImm(k)] + ([LdInd(B, 0)] + ([St(m)] + ([LdxImm(k)] + ([LdMem(m)] + []))))
    requires Has(VState(n.starts[1], n.entry[1]), k) && n.entry[1][m] == 0 && Proper(n.starts[1])
    ensures forall a: Atom :: a in {A_ATOM, X_ATOM} ==> n.entry[1][a] != 0 && n.exit[1][a] == n.entry[1][a]
  {
    var vs, ss := VState(n.starts[1], n.entry[1]), g[1].stmts;
    var v1 := vs.(val := vs.val[m := vs.val[A_ATOM]]);
    var last := [LdMem(m)] + [];
    var tail := [LdxImm(k)] + last;
    var rest := [St(m)] + tail;
    NumberGreater(vs, v1, k, m, last, tail, rest, [LdInd(B, 0)] + rest, ss, OptStmts(vs, ss, true));
  }

  lemma FirstDead(ss: seq<Stmt>, on: set<Atom>, k: Word, m: Slot)
    requires ss == [LdxImm(k), LdAbs(B, k), St(m), Nop] && on == {A_ATOM}
    ensures DeadAt(ss, on, 0) && !DeadAt(ss, on, 1) && DeadAt(ss, on, 2) && X_ATOM in Dropped(ss, on)
  {
    assert OpenAt(ss, 0, 4, X_ATOM);
    assert OpenAt(ss, 2, 4, m);
    assert A_ATOM in AtomUse(ss[2]) && AtomDef(ss[2]) != Some(A_ATOM);
  }

  lemma FirstCleaned(b: Block, b': Block, k: Word, m: Slot)
    requires b.stmts == [LdxImm(k), LdAbs(B, k), St(m), Nop] && CleanedBlock(b, b', {})
    requires var on := {} + BranchUse(b.s); DeadAt(b.stmts, on, 0) && !DeadAt(b.stmts, on, 1) && DeadAt(b.stmts, on, 2)
    ensures b' == b.(stmts := [Nop, LdAbs(B, k), Nop, Nop])
  {
  }

  /** The first test after the sweep: without its load of X. */
  lemma FirstFinished(b: Block, b': Block, k: Word, j: Word, m: Slot, cx: Option<Word>)
    requires b.stmts == [LdxImm(k), LdAbs(B, k), St(m), Nop] && b.s == Jmp(Jeq, FromK, j)
    requires Finished(b, b', false, {}, None, cx)
    ensures b' == b.(stmts := [Nop, LdAbs(B, k), Nop, Nop]) && X_ATOM in Lost(b, {}, None, cx)
  {
    assert LeftAlone(b, None);
    PeepLeavesAlone(b, {}, None, cx);
    FirstDead(b.stmts, {} + BranchUse(b.s), k, m);
    FirstCleaned(b, b', k, m);
  }

  /** Loading the byte and storing it. */
  lemma LoadRuns(k: Word, m: Slot, rest: seq<Stmt>, st: State, p: Packet, v: Word)
    requires p.load(B, k) == Some(v)
    ensures ExecAll([LdxImm(k)] + ([LdInd(B, 0)] + ([St(m)] + rest)), st, p) ==
            ExecAll(rest, st[X_ATOM := k][A_ATOM := v][m := v], p)
  {
    var r2 := [St(m)] + rest;
    var t1 := st[X_ATOM := k];
    assert Offset(k, 0) == k;
    Exec1(St(m), rest, t1[A_ATOM := v], p);
    Exec1(LdInd(B, 0), r2, t1, p);
    Exec1(LdxImm(k), [LdInd(B, 0)] + r2, st, p);
  }

  lemma FirstRuns(ss: seq<Stmt>, k: Word, m: Slot, rest: seq<Stmt>, st: State, t: State, p: Packet, v: Word)
    requires rest == [LdMem(m)] + [] && ss == [LdxImm(k)] + ([LdInd(B, 0)] + ([St(m)] + rest))
    requires p.load(B, k) == Some(v) && t == st[X_ATOM := k][A_ATOM := v][m := v]
    ensures ExecAll(ss, st, p) == Some(t)
  {
    LoadRuns(k, m, rest, st, p, v);
    Exec1(LdMem(m), [], t, p);
    assert t[A_ATOM := v] == t;
  }

  lemma SecondRuns(ss: seq<Stmt>, k: Word, m: Slot, last: seq<Stmt>, rest: seq<Stmt>, st: State, t: State, p: Packet,
                   v: Word)
    requires last == [LdMem(m)] + [] && rest == [LdxImm(k)] + last
    requires ss == [LdxImm(k)] + ([LdInd(B, 0)] + ([St(m)] + rest))
    requires p.load(B, k) == Some(v) && t == st[X_ATOM := k][A_ATOM := v][m := v]
    ensures ExecAll(ss, st, p) == Some(t)
  {
    LoadRuns(k, m, rest, st, p, v);
    assert t[A_ATOM := v] == t && t[X_ATOM := k] == t;
    Exec1(LdMem(m), [], t, p);
    Exec1(LdxImm(k), last, t, p);
  }

  lemma SweptFirstRuns(k: Word, tail: seq<Stmt>, ss: seq<Stmt>, st: State, p: Packet, v: Word)
    requires tail == [Nop] + ([Nop] + []) && ss == [Nop] + ([LdAbs(B, k)] + tail) && p.load(B, k) == Some(v)
    ensures ExecAll(ss, st, p) == Some(st[A_ATOM := v])
  {
    Exec1(Nop, [], st[A_ATOM := v], p);
    Exec1(Nop, [Nop] + [], st[A_ATOM := v], p);
    Exec1(LdAbs(B, k), tail, st, p);
    Exec1(Nop, [LdAbs(B, k)] + tail, st, p);
  }

  /** Four blocks that branch as the filter does, with levels. */
  predicate Branches(g: Graph, lv: seq<int>, j: Word, snaplen: Word) {
    && |g| == 4 && Leveled(g, lv) && (forall b :: 0 <= b < 4 ==> lv[b] >= 0)
    && g[0].s == Jmp(Jeq, FromK, j) && g[0].jt == 2 && g[0].jf == 1
    && g[1].s == Jmp(Jgt, FromX, 0) && g[1].jt == 2 && g[1].jf == 3
    && g[2].stmts == [] && g[2].s == RetK(snaplen) && g[3].stmts == [] && g[3].s == RetK(0)
  }

  lemma RunStep(g: Graph, lv: seq<int>, b: nat, st: State, t: State, p: Packet)
    requires Leveled(g, lv) && b < |g| && lv[b] >= 0 && ExecAll(g[b].stmts, st, p) == Some(t)
    ensures Run(g, lv, b, st, p) == if g[b].s.Jmp? then Run(g, lv, Chosen(g[b], t), t, p) else Finish(g[b].s, t)
  {
  }

  /** The verdict of the second test, which compares `a` with `x`. */
  function Above(a: Word, x: Word, snaplen: Word): Outcome {
    Return(if a > x then snaplen else 0)
  }

  lemma SecondTest(g: Graph, lv: seq<int>, j: Word, snaplen: Word, t: State, u: State, p: Packet)
    requires Branches(g, lv, j, snaplen) && ExecAll(g[1].stmts, t, p) == Some(u)
    ensures Run(g, lv, 1, t, p) == Above(u[A_ATOM], u[X_ATOM], snaplen)
  {
    var c := Chosen(g[1], u);
    SecondChooses(g[1], u);
    RunStep(g, lv, 1, t, u, p);
    RunStep(g, lv, c, u, u, p);
  }

  lemma SecondChooses(b: Block, u: State)
    requires b.s == Jmp(Jgt, FromX, 0) && b.jt == 2 && b.jf == 3
    ensures Chosen(b, u) == if u[A_ATOM] > u[X_ATOM] then 2 else 3
  {
  }

  /** Where the two tests lead in states `t` and `u`. */
  lemma RunsThrough(g: Graph, lv: seq<int>, j: Word, snaplen: Word, st: State, t: State, u: State, p: Packet)
    requires Branches(g, lv, j, snaplen)
    requires ExecAll(g[0].stmts, st, p) == Some(t) && t[A_ATOM] != j && ExecAll(g[1].stmts, t, p) == Some(u)
    ensures Run(g, lv, 0, st, p) == Above(u[A_ATOM], u[X_ATOM], snaplen)
  {
    RunStep(g, lv, 0, st, t, p);
    SecondTest(g, lv, j, snaplen, t, u, p);
  }

  /** A byte that is not `j` is accepted exactly when it is above `k`. */
  lemma FilterDecides(g: Graph, lv: seq<int>, k: Word, j: Word, snaplen: Word, m0: Slot, m1: Slot, st: State, p: Packet,
                      v: Word)
    requires Branches(g, lv, j, snaplen) && Tests(g[0].stmts, g[1].stmts, k, m0, m1) && p.load(B, k) == Some(v)
    requires v != j
    ensures Run(g, lv, 0, st, p) == Above(v, k, snaplen)
  {
    var last := [LdMem(m1)] + [];
    var t := st[X_ATOM := k][A_ATOM := v][m0 := v];
    var u := t[X_ATOM := k][A_ATOM := v][m1 := v];
    FirstRuns(g[0].stmts, k, m0, [LdMem(m0)] + [], st, t, p, v);
    SecondRuns(g[1].stmts, k, m1, last, [LdxImm(k)] + last, t, u, p, v);
    RunsThrough(g, lv, j, snaplen, st, t, u, p);
  }

  /** The swept filter compares with the X it is entered with. */
  lemma SweptDecides(g: Graph, lv: seq<int>, k: Word, j: Word, snaplen: Word, tail: seq<Stmt>, st: State, p: Packet,
                     v: Word)
    requires Branches(g, lv, j, snaplen) && p.load(B, k) == Some(v) && v != j
    requires tail == [Nop] + ([Nop] + []) && g[0].stmts == [Nop] + ([LdAbs(B, k)] + tail) && g[1].stmts == []
    ensures Run(g, lv, 0, st, p) == Above(v, st[X_ATOM], snaplen)
  {
    var t := st[A_ATOM := v];
    SweptFirstRuns(k, tail, g[0].stmts, st, p, v);
    RunsThrough(g, lv, j, snaplen, st, t, t, p);
  }

  /** The second test reads nothing it has not loaded. */
  lemma SecondReadsNothing(ss: seq<Stmt>, br: Branch, k: Word, m: Slot)
    requires ss == [LdxImm(k)] + ([LdInd(B, 0)] + ([St(m)] + ([LdxImm(k)] + ([LdMem(m)] + []))))
    requires br == Jmp(Jgt, FromX, 0)
    ensures LiveIn(ss, br, {}) == {}
  {
    var r1 := [LdMem(m)] + [];
    var r2 := [LdxImm(k)] + r1;
    var r3 := [St(m)] + r2;
    var r4 := [LdInd(B, 0)] + r3;
    LiveCons(LdMem(m), [], br, {});
    LiveCons(LdxImm(k), r1, br, {});
    LiveCons(St(m), r2, br, {});
    LiveCons(LdInd(B, 0), r3, br, {});
    LiveCons(LdxImm(k), r4, br, {});
  }

  /** Nothing is live between the blocks, for each loads what it reads. */
  lemma NothingLive(g: Graph, lv: seq<int>, k: Word, j: Word, snaplen: Word, m0: Slot, m1: Slot)
    requires Branches(g, lv, j, snaplen) && Tests(g[0].stmts, g[1].stmts, k, m0, m1)
    ensures NeededAfter(g, lv, 0) == {} && NeededAfter(g, lv, 1) == {}
  {
    assert Needed(g, lv, 2) == {} && Needed(g, lv, 3) == {};
    SecondReadsNothing(g[1].stmts, g[1].s, k, m1);
  }

  lemma BlockNumbered(g: Graph, g1: Graph, live: set<nat>, n: Numbers, b: nat)
    requires Numbered(g, g1, 0, live, n, true) && b in live
    ensures b < |g| && NumberedAt(g, g1, n, true, b) && (b == 0 ==> n.entry[b] == Unknown)
  {
    assert NumberedWell(g, g1, 0, live, n, true, b);
  }

  lemma NotConstant(n: Numbers, b: nat, k: Word)
    requires b < |n.exit| == |n.ends| && n.ends[b] <= n.tbl && Has(VState(n.ends[b], n.exit[b]), k)
    ensures ConstantAt(n, b, A_ATOM) == None
  {
  }

  lemma FirstBlock(g: Graph, g1: Graph, live: set<nat>, n: Numbers, k: Word, m: Slot, other: Slot)
    requires Numbered(g, g1, 0, live, n, true) && 0 in live && m != other
    requires g[0].stmts == [LdxImm(k)] + ([LdInd(B, 0)] + ([St(m)] + ([LdMem(m)] + [])))
    ensures g1[0] == g[0].(stmts := [LdxImm(k)] + [LdAbs(B, k), St(m), Nop])
    ensures Has(VState(n.ends[0], n.exit[0]), k) && n.exit[0][other] == 0 && n.entry[0][A_ATOM] == 0
    ensures ConstantAt(n, 0, A_ATOM) == None
  {
    BlockNumbered(g, g1, live, n, 0);
    var tail := [St(m)] + ([LdMem(m)] + []);
    LoadsNumbered(g, g1, n, k, m, other, g[0].stmts, tail, [LdInd(B, 0)] + tail);
    NotConstant(n, 0, k);
  }

  lemma FirstLeads(g: Graph, lv: seq<int>, live: set<nat>, j: Word, snaplen: Word)
    requires Branches(g, lv, j, snaplen)
    ensures forall q: nat :: q in live && BlockRel(g)(q, 1) ==> q == 0
  {
  }

  lemma SecondBlock(g: Graph, g1: Graph, live: set<nat>, n: Numbers, k: Word, m: Slot)
    requires Numbered(g, g1, 0, live, n, true) && 0 in live && 1 in live
    requires forall q: nat :: q in live && BlockRel(g)(q, 1) ==> q == 0
    requires Has(VState(n.ends[0], n.exit[0]), k) && n.exit[0][m] == 0
    requires g[1].stmts == [LdxImm(k)] + ([LdInd(B, 0)] + ([St(m)] + ([LdxImm(k)] + ([LdMem(m)] + []))))
    ensures forall a: Atom :: a in {A_ATOM, X_ATOM} ==> n.entry[1][a] != 0 && n.exit[1][a] == n.entry[1][a]
  {
    SecondEntered(g, g1, live, n, k);
    BlockNumbered(g, g1, live, n, 1);
    SecondNumbered(g, g1, n, k, m);
  }

  /** What numbering makes of the two tests. */
  lemma FilterNumbered(g: Graph, lv: seq<int>, live: set<nat>, g1: Graph, n: Numbers, k: Word, j: Word, snaplen: Word,
                       m0: Slot, m1: Slot)
    requires Branches(g, lv, j, snaplen) && Tests(g[0].stmts, g[1].stmts, k, m0, m1) && m0 != m1
    requires live == {0, 1, 2, 3} && Numbered(g, g1, 0, live, n, true)
    ensures g1[0] == g[0].(stmts := [LdxImm(k)] + [LdAbs(B, k), St(m0), Nop])
    ensures n.entry[0][A_ATOM] == 0 && ConstantAt(n, 0, A_ATOM) == None
    ensures forall a: Atom :: a in {A_ATOM, X_ATOM} ==> n.entry[1][a] != 0 && n.exit[1][a] == n.entry[1][a]
    ensures forall b: nat :: b < 4 ==> g1[b] == g[b].(stmts := g1[b].stmts)
  {
    FirstBlock(g, g1, live, n, k, m0, m1);
    FirstLeads(g, lv, live, j, snaplen);
    SecondBlock(g, g1, live, n, k, m1);
    forall b: nat | b < 4 ensures g1[b] == g[b].(stmts := g1[b].stmts) {
      BlockNumbered(g, g1, live, n, b);
    }
  }

  lemma FirstSwept(g: Graph, g1: Graph, g2: Graph, live: set<nat>, n: Numbers, outUse: seq<AtomSet>, k: Word, j: Word,
                   m: Slot)
    requires SweptGraph(g1, g2, live, n, true, outUse) && 0 in live && 0 < |g1| == |g| && outUse[0] == {}
    requires g1[0] == g[0].(stmts := [LdxImm(k)] + [LdAbs(B, k), St(m), Nop]) && g[0].s == Jmp(Jeq, FromK, j)
    requires n.entry[0][A_ATOM] == 0 && ConstantAt(n, 0, A_ATOM) == None
    ensures g2[0] == g[0].(stmts := [Nop, LdAbs(B, k), Nop, Nop]) && !EmptiedAt(g1, n, true, outUse, 0)
    ensures X_ATOM in Lost(g1[0], outUse[0], ConstantAt(n, 0, A_ATOM), ConstantAt(n, 0, X_ATOM))
  {
    assert FinishedAt(g1, g2, n, true, outUse, 0);
    assert g1[0].stmts == [LdxImm(k), LdAbs(B, k), St(m), Nop];
    FirstFinished(g1[0], g2[0], k, j, m, ConstantAt(n, 0, X_ATOM));
  }

  lemma OthersSwept(g: Graph, g1: Graph, g2: Graph, live: set<nat>, n: Numbers, outUse: seq<AtomSet>, b: nat)
    requires SweptGraph(g1, g2, live, n, true, outUse) && b in live && b < |g1| == |g|
    requires g1[b] == g[b].(stmts := g1[b].stmts) && EmptiedAt(g1, n, true, outUse, b)
    ensures g2[b] == g[b].(stmts := [])
  {
    assert FinishedAt(g1, g2, n, true, outUse, b);
  }

  /** What the sweep makes of them: X is lost in the first, and the second, emptied, needs it. */
  lemma FilterSwept(g: Graph, lv: seq<int>, live: set<nat>, g1: Graph, g2: Graph, n: Numbers, outUse: seq<AtomSet>,
                    k: Word, j: Word, snaplen: Word, m0: Slot, m1: Slot)
    requires Branches(g, lv, j, snaplen) && Tests(g[0].stmts, g[1].stmts, k, m0, m1) && m0 != m1
    requires live == {0, 1, 2, 3} && Numbered(g, g1, 0, live, n, true) && SweptGraph(g1, g2, live, n, true, outUse)
    requires outUse[0] == {} && outUse[1] == {} && Leveled(g2, lv)
    ensures Branches(g2, lv, j, snaplen) && g2[0].stmts == [Nop, LdAbs(B, k), Nop, Nop] && g2[1].stmts == []
    ensures EmptiedAt(g1, n, true, outUse, 1) && !EmptiedAt(g1, n, true, outUse, 0) && g1[1].s == g[1].s
    ensures g1[0].s == g[0].s && g1[0].jf == 1 && g1[0].jt == 2
    ensures X_ATOM in Lost(g1[0], outUse[0], ConstantAt(n, 0, A_ATOM), ConstantAt(n, 0, X_ATOM))
  {
    FilterNumbered(g, lv, live, g1, n, k, j, snaplen, m0, m1);
    FirstSwept(g, g1, g2, live, n, outUse, k, j, m0);
    OthersSwept(g, g1, g2, live, n, outUse, 1);
    OthersSwept(g, g1, g2, live, n, outUse, 2);
    OthersSwept(g, g1, g2, live, n, outUse, 3);
  }

  lemma XIsLost(g1: Graph, lv: seq<int>, live: set<nat>, n: Numbers, outUse: seq<AtomSet>)
    requires Sized(g1, n) && |outUse| == |g1| && 1 < |g1| && 0 in live && Leveled(g1, lv) && lv[0] >= 0
    requires g1[0].s.Jmp? && g1[0].jf == 1 && g1[1].s == Jmp(Jgt, FromX, 0)
    requires EmptiedAt(g1, n, true, outUse, 1) && !EmptiedAt(g1, n, true, outUse, 0)
    requires X_ATOM in Lost(g1[0], outUse[0], ConstantAt(n, 0, A_ATOM), ConstantAt(n, 0, X_ATOM))
    ensures !NothingLost(g1, lv, live, n, true, outUse)
  {
    var m := Middle(g1, n, true, outUse);
    MiddleLeveled(g1, lv, n, true, outUse);
    assert m[1].stmts == [] && m[0] == g1[0];
    assert X_ATOM in Needed(m, lv, 1);
    assert X_ATOM in NeededAfter(m, lv, 0);
    assert !SparesAt(g1, m, lv, n, true, outUse, 0);
  }

  lemma FilterShape(g: Graph, lv: seq<int>, k: Word, j: Word, snaplen: Word, m0: Slot, m1: Slot)
    requires g == Filter(k, j, snaplen, m0, m1) && Leveled(g, lv) && forall b :: 0 <= b < 4 ==> lv[b] >= 0
    ensures Branches(g, lv, j, snaplen) && Tests(g[0].stmts, g[1].stmts, k, m0, m1)
  {
  }

  lemma FirstClosed(ss: seq<Stmt>, br: Branch, k: Word, j: Word, m: Slot)
    requires ss == [LdxImm(k)] + ([LdInd(B, 0)] + ([St(m)] + ([LdMem(m)] + []))) && br == Jmp(Jeq, FromK, j)
    ensures Closed(ss, br, {})
  {
    var r1 := [LdMem(m)] + [];
    var r2 := [St(m)] + r1;
    var r3 := [LdInd(B, 0)] + r2;
    var d0: set<Atom> := {};
    var d1 := d0 + {X_ATOM};
    var d2 := d1 + {A_ATOM};
    var d3 := d2 + {m};
    ClosedCons(LdMem(m), [], br, d3);
    ClosedCons(St(m), r1, br, d2);
    ClosedCons(LdInd(B, 0), r2, br, d1);
    ClosedCons(LdxImm(k), r3, br, d0);
  }

  lemma SecondClosed(ss: seq<Stmt>, br: Branch, k: Word, m: Slot)
    requires ss == [LdxImm(k)] + ([LdInd(B, 0)] + ([St(m)] + ([LdxImm(k)] + ([LdMem(m)] + []))))
    requires br == Jmp(Jgt, FromX, 0)
    ensures Closed(ss, br, {})
  {
    var r1 := [LdMem(m)] + [];
    var r2 := [LdxImm(k)] + r1;
    var r3 := [St(m)] + r2;
    var r4 := [LdInd(B, 0)] + r3;
    var d0: set<Atom> := {};
    var d1 := d0 + {X_ATOM};
    var d2 := d1 + {A_ATOM};
    var d3 := d2 + {m};
    var d4 := d3 + {X_ATOM};
    ClosedCons(LdMem(m), [], br, d4);
    ClosedCons(LdxImm(k), r1, br, d3);
    ClosedCons(St(m), r2, br, d2);
    ClosedCons(LdInd(B, 0), r3, br, d1);
    ClosedCons(LdxImm(k), r4, br, d0);
  }

  lemma FilterGenerated(g: Graph, lv: seq<int>, k: Word, j: Word, snaplen: Word, m0: Slot, m1: Slot)
    requires Branches(g, lv, j, snaplen) && Tests(g[0].stmts, g[1].stmts, k, m0, m1)
    ensures Generated(g)
  {
    FirstClosed(g[0].stmts, g[0].s, k, j, m0);
    SecondClosed(g[1].stmts, g[1].s, k, m1);
    forall b | 0 <= b < |g| ensures Closed(g[b].stmts, g[b].s, {}) && !g[b].s.RetA? {
      assert b == 0 || b == 1 || b == 2 || b == 3;
    }
  }

  lemma NeverAborts(g: Graph, lv: seq<int>, k: Word, j: Word, snaplen: Word, m0: Slot, m1: Slot, b: nat)
    requires Branches(g, lv, j, snaplen) && Tests(g[0].stmts, g[1].stmts, k, m0, m1) && b < 4
    ensures !AlwaysAborts(g[b].stmts)
  {
    var st: State, p, last := seq(18, _ => 0), LongPacket(), [LdMem(m1)] + [];
    var t0, t1 := st[X_ATOM := k][A_ATOM := 0][m0 := 0], st[X_ATOM := k][A_ATOM := 0][m1 := 0];
    FirstRuns(g[0].stmts, k, m0, [LdMem(m0)] + [], st, t0, p, 0);
    SecondRuns(g[1].stmts, k, m1, last, [LdxImm(k)] + last, st, t1, p, 0);
    assert b == 0 || b == 1 || b == 2 || b == 3;
    assert ExecAll(g[b].stmts, st, p).Some?;
  }

  /** The sweep over the filter makes it compare the byte with the X it is entered with, not with `k`.  X starts
      out as 0, so every byte but 0 is accepted.  Numbering has made the second test read X, and the first has
      lost it. */
  method SweepIsWrong(k: Word, j: Word, snaplen: Word, m0: Slot, m1: Slot)
    returns (g2: Graph, ghost lv: seq<int>, g1: Graph, n: Numbers, outUse: seq<AtomSet>)
    requires m0 != m1
    ensures Leveled(Filter(k, j, snaplen, m0, m1), lv) && Leveled(g2, lv) && |g2| == 4 && lv[0] >= 0
    ensures forall st: State, p: Packet, v: Word :: p.load(B, k) == Some(v) && v != j ==>
              && Run(Filter(k, j, snaplen, m0, m1), lv, 0, st, p) == Above(v, k, snaplen)
              && Run(g2, lv, 0, st, p) == Above(v, st[X_ATOM], snaplen)
    ensures !NothingLost(g1, lv, {0, 1, 2, 3}, n, true, outUse)
  {
    var g := Filter(k, j, snaplen, m0, m1);
    FilterShape(g, [2, 1, 0, 0], k, j, snaplen, m0, m1);
    g2, lv, g1, n, outUse := SweepTests(g, k, j, snaplen, m0, m1, [2, 1, 0, 0]);
  }

  /** What the pass promises of a generated graph. */
  method SweepGenerated(g: Graph, ghost lv: seq<int>)
    returns (ok: bool, g1: Graph, g2: Graph, ghost lv': seq<int>, n: Numbers, outUse: seq<AtomSet>, ghost failed: nat)
    requires Rooted(g, lv, 0) && Generated(g)
    ensures IsLiveness(g, lv', LiveBlocks(g, 0), outUse)
    ensures ok ==> Leveled(g1, lv') && Leveled(g2, lv') && Numbered(g, g1, 0, LiveBlocks(g, 0), n, true)
    ensures ok ==> SweptGraph(g1, g2, LiveBlocks(g, 0), n, true, outUse)
    ensures !ok ==> failed < |g| && AlwaysAborts(g[failed].stmts)
  {
    ok, g1, g2, lv', n, outUse, failed := SweepPass(g, 0, true, lv);
  }

  method SweepTests(g: Graph, ghost k: Word, ghost j: Word, ghost snaplen: Word, ghost m0: Slot, ghost m1: Slot,
                    ghost levels: seq<int>)
    returns (g2: Graph, ghost lv: seq<int>, g1: Graph, n: Numbers, outUse: seq<AtomSet>)
    requires Branches(g, levels, j, snaplen) && Tests(g[0].stmts, g[1].stmts, k, m0, m1) && m0 != m1
    ensures Branches(g, lv, j, snaplen) && Branches(g2, lv, j, snaplen)
    ensures Compares(g, g2, lv, k, j, snaplen)
    ensures !NothingLost(g1, lv, {0, 1, 2, 3}, n, true, outUse)
  {
    FilterGenerated(g, levels, k, j, snaplen, m0, m1);
    TwoTestsLive(g);
    var ok;
    ghost var failed;
    ok, g1, g2, lv, n, outUse, failed := SweepGenerated(g, levels);
    if !ok {
      NeverAborts(g, levels, k, j, snaplen, m0, m1, failed);
      assert false;
    }
    SameBranches(g, levels, lv, {0, 1, 2, 3}, outUse, j, snaplen);
    TestsSwept(g, g1, g2, lv, {0, 1, 2, 3}, n, outUse, k, j, snaplen, m0, m1);
  }

  /** On a byte that is not `j`, `g` compares it with `k` and `g2` with X on entry. */
  ghost predicate Compares(g: Graph, g2: Graph, lv: seq<int>, k: Word, j: Word, snaplen: Word)
    requires Branches(g, lv, j, snaplen) && Branches(g2, lv, j, snaplen)
  {
    forall st: State, p: Packet, v: Word :: p.load(B, k) == Some(v) && v != j ==>
      Run(g, lv, 0, st, p) == Above(v, k, snaplen) && Run(g2, lv, 0, st, p) == Above(v, st[X_ATOM], snaplen)
  }

  lemma SameBranches(g: Graph, levels: seq<int>, lv: seq<int>, live: set<nat>, outUse: seq<AtomSet>, j: Word,
                     snaplen: Word)
    requires Branches(g, levels, j, snaplen) && IsLiveness(g, lv, live, outUse) && live == {0, 1, 2, 3}
    ensures Branches(g, lv, j, snaplen)
  {
    forall b | 0 <= b < 4 ensures lv[b] >= 0 {
      assert b in live && outUse[b] == outUse[b];
    }
  }

  lemma TestsSwept(g: Graph, g1: Graph, g2: Graph, lv: seq<int>, live: set<nat>, n: Numbers, outUse: seq<AtomSet>,
                   k: Word, j: Word, snaplen: Word, m0: Slot, m1: Slot)
    requires Branches(g, lv, j, snaplen) && Tests(g[0].stmts, g[1].stmts, k, m0, m1) && m0 != m1
    requires live == {0, 1, 2, 3} && Numbered(g, g1, 0, live, n, true) && SweptGraph(g1, g2, live, n, true, outUse)
    requires IsLiveness(g, lv, live, outUse) && Leveled(g1, lv) && Leveled(g2, lv)
    ensures Branches(g2, lv, j, snaplen) && Compares(g, g2, lv, k, j, snaplen)
    ensures !NothingLost(g1, lv, live, n, true, outUse)
  {
    NothingLive(g, lv, k, j, snaplen, m0, m1);
    assert outUse[0] == {} && outUse[1] == {};
    FilterSwept(g, lv, live, g1, g2, n, outUse, k, j, snaplen, m0, m1);
    XIsLost(g1, lv, live, n, outUse);
    BothDecide(g, g2, lv, k, j, snaplen, m0, m1);
  }

  lemma BothDecide(g: Graph, g2: Graph, lv: seq<int>, k: Word, j: Word, snaplen: Word, m0: Slot, m1: Slot)
    requires Branches(g, lv, j, snaplen) && Tests(g[0].stmts, g[1].stmts, k, m0, m1)
    requires Branches(g2, lv, j, snaplen) && g2[0].stmts == [Nop, LdAbs(B, k), Nop, Nop] && g2[1].stmts == []
    ensures Compares(g, g2, lv, k, j, snaplen)
  {
    var tail := [Nop] + ([Nop] + []);
    assert g2[0].stmts == [Nop] + ([LdAbs(B, k)] + tail);
    forall st: State, p: Packet, v: Word | p.load(B, k) == Some(v) && v != j
      ensures Run(g, lv, 0, st, p) == Above(v, k, snaplen) && Run(g2, lv, 0, st, p) == Above(v, st[X_ATOM], snaplen)
    {
      FilterDecides(g, lv, k, j, snaplen, m0, m1, st, p, v);
      SweptDecides(g2, lv, k, j, snaplen, tail, st, p, v);
    }
  }
}
