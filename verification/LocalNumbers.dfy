/** In a self-contained block the numbers, and whether numbering fails, do not depend on the numbers the
    block is entered with. */
module LocalNumbers {
  import opened Machine
  import opened Atoms
  import opened Levels
  import opened ValueNumbers
  import opened Numbering
  import opened NumberingPass

  /** Forget the numbers outside `on`. */
  function Mask(val: Vals, on: set<Atom>): (m: Vals)
    ensures forall a: Atom :: m[a] == if a in on then val[a] else 0
  {
    seq(18, a requires 0 <= a < 18 => if a in on then val[a] else 0)
  }

  predicate SameOn(v1: Vals, v2: Vals, on: set<Atom>) {
    forall a: Atom :: a in on ==> v1[a] == v2[a]
  }

  /** Two steps from the same table agree: on failing, on the new table, and on the numbers of `on`. */
  predicate SameStep(r1: Step, r2: Step, on: set<Atom>) {
    (r1.Done? <==> r2.Done?) && (r1.Done? ==> r1.vs.tbl == r2.vs.tbl && SameOn(r1.vs.val, r2.vs.val, on))
  }

  lemma StoreLocal(tbl: Table, v1: Vals, v2: Vals, a: Atom, v: nat, s: Stmt, on: set<Atom>, alter: bool)
    requires InTable(tbl, v1) && InTable(tbl, v2) && SameOn(v1, v2, on) && v <= |tbl|
    ensures SameStep(Store(VState(tbl, v1), a, v, s, alter), Store(VState(tbl, v2), a, v, s, alter), on + {a})
  {
  }

  lemma StoreKeyLocal(tbl: Table, v1: Vals, v2: Vals, a: Atom, k: Key, s: Stmt, on: set<Atom>, alter: bool)
    requires InTable(tbl, v1) && InTable(tbl, v2) && SameOn(v1, v2, on)
    ensures SameStep(StoreKey(VState(tbl, v1), a, k, s, alter), StoreKey(VState(tbl, v2), a, k, s, alter), on + {a})
  {
    StoreLocal(Intern(tbl, k).0, v1, v2, a, Intern(tbl, k).1, s, on, alter);
  }

  lemma SetALocal(tbl: Table, v1: Vals, v2: Vals, k: Key, s: Stmt, on: set<Atom>)
    requires InTable(tbl, v1) && InTable(tbl, v2) && SameOn(v1, v2, on)
    ensures SameStep(SetA(VState(tbl, v1), k, s), SetA(VState(tbl, v2), k, s), on + {A_ATOM})
  {
  }

  lemma FoldLocal(tbl: Table, v1: Vals, v2: Vals, op: AluOp, a: Word, b: Word, on: set<Atom>)
    requires InTable(tbl, v1) && InTable(tbl, v2) && SameOn(v1, v2, on)
    ensures SameStep(Fold(VState(tbl, v1), op, a, b), Fold(VState(tbl, v2), op, a, b), on + {A_ATOM})
  {
    match Alu(op, a, b)
    case None =>
    case Some(w) => SetALocal(tbl, v1, v2, KImm(w), LdImm(w), on);
  }

  lemma AluKLocal(tbl: Table, v1: Vals, v2: Vals, op: AluOp, k: Word, on: set<Atom>, alter: bool)
    requires InTable(tbl, v1) && InTable(tbl, v2) && SameOn(v1, v2, on) && A_ATOM in on
    ensures SameStep(OptAluK(VState(tbl, v1), op, k, alter), OptAluK(VState(tbl, v2), op, k, alter), on + {A_ATOM})
  {
    var a, r := v1[A_ATOM], Intern(tbl, KImm(k));
    assert v2[A_ATOM] == a;
    if alter && k == 0 && (op.Add? || op.Lsh? || op.Rsh? || op.Or?) {
    } else if alter && k == 0 && (op.Mul? || op.And?) {
      SetALocal(tbl, v1, v2, KImm(k), LdImm(k), on);
    } else if alter && IsConst(tbl, a) {
      FoldLocal(r.0, v1, v2, op, ConstOf(tbl, a), k, on);
    } else {
      SetALocal(r.0, v1, v2, KAlu(op, FromK, a, r.1), AluK(op, k), on);
    }
  }

  lemma AluXLocal(tbl: Table, v1: Vals, v2: Vals, op: AluOp, on: set<Atom>, alter: bool)
    requires InTable(tbl, v1) && InTable(tbl, v2) && SameOn(v1, v2, on) && A_ATOM in on && X_ATOM in on
    ensures SameStep(OptAluX(VState(tbl, v1), op, alter), OptAluX(VState(tbl, v2), op, alter), on + {A_ATOM})
  {
    var a, x := v1[A_ATOM], v1[X_ATOM];
    assert v2[A_ATOM] == a && v2[X_ATOM] == x;
    if alter && IsConst(tbl, x) {
      ConstXLocal(tbl, v1, v2, op, on);
    } else if alter && IsConst(tbl, a) && ConstOf(tbl, a) == 0 && (op.Add? || op.Or?) {
      StoreLocal(tbl, v1, v2, A_ATOM, x, Txa, on, alter);
    } else if alter && IsConst(tbl, a) && ConstOf(tbl, a) == 0 && !op.Sub? {
      StoreKeyLocal(tbl, v1, v2, A_ATOM, KImm(0), LdImm(0), on, alter);
    } else {
      SetALocal(tbl, v1, v2, KAlu(op, FromX, a, x), AluX(op), on);
    }
  }

  lemma ConstXLocal(tbl: Table, v1: Vals, v2: Vals, op: AluOp, on: set<Atom>)
    requires InTable(tbl, v1) && InTable(tbl, v2) && SameOn(v1, v2, on) && A_ATOM in on && X_ATOM in on
    requires IsConst(tbl, v1[X_ATOM])
    ensures SameStep(OptAluX(VState(tbl, v1), op, true), OptAluX(VState(tbl, v2), op, true), on + {A_ATOM})
  {
    var a, x := v1[A_ATOM], v1[X_ATOM];
    assert v2[A_ATOM] == a && v2[X_ATOM] == x;
    var k := ConstOf(tbl, x);
    if IsConst(tbl, a) {
      FoldLocal(tbl, v1, v2, op, ConstOf(tbl, a), k, on);
    } else {
      var r := Intern(tbl, KImm(k));
      SetALocal(r.0, v1, v2, KAlu(op, FromK, a, r.1), AluK(op, k), on);
    }
  }

  lemma NegLocal(tbl: Table, v1: Vals, v2: Vals, on: set<Atom>, alter: bool)
    requires InTable(tbl, v1) && InTable(tbl, v2) && SameOn(v1, v2, on) && A_ATOM in on
    ensures SameStep(OptStmt(VState(tbl, v1), Neg, alter), OptStmt(VState(tbl, v2), Neg, alter), on + {A_ATOM})
  {
    var a := v1[A_ATOM];
    assert v2[A_ATOM] == a;
    if alter && IsConst(tbl, a) {
      SetALocal(tbl, v1, v2, KImm(Negate(ConstOf(tbl, a))), LdImm(Negate(ConstOf(tbl, a))), on);
    } else {
      SetALocal(tbl, v1, v2, KNeg(a), Neg, on);
    }
  }

  lemma IndLocal(tbl: Table, v1: Vals, v2: Vals, s: Stmt, on: set<Atom>, alter: bool)
    requires InTable(tbl, v1) && InTable(tbl, v2) && SameOn(v1, v2, on) && X_ATOM in on && s.LdInd?
    ensures SameStep(OptStmt(VState(tbl, v1), s, alter), OptStmt(VState(tbl, v2), s, alter), on + {A_ATOM})
  {
    var x := v1[X_ATOM];
    assert v2[X_ATOM] == x;
    if alter && IsConst(tbl, x) {
      var k := Offset(ConstOf(tbl, x), s.k);
      StoreKeyLocal(tbl, v1, v2, A_ATOM, KAbs(s.size, k), LdAbs(s.size, k), on, alter);
    } else {
      StoreKeyLocal(tbl, v1, v2, A_ATOM, KInd(s.size, s.k, x), s, on, alter);
    }
  }

  /** Copies: the atom read has the same number, so the atom written gets the same. */
  lemma CopyLocal(tbl: Table, v1: Vals, v2: Vals, s: Stmt, on: set<Atom>, alter: bool)
    requires InTable(tbl, v1) && InTable(tbl, v2) && SameOn(v1, v2, on) && AtomUse(s) <= on
    requires s.Txa? || s.Tax? || s.LdMem? || s.LdxMem? || s.St? || s.Stx?
    ensures SameStep(OptStmt(VState(tbl, v1), s, alter), OptStmt(VState(tbl, v2), s, alter), on + {Dest(s)})
  {
    var from: Atom := if s.Txa? || s.Stx? then X_ATOM else if s.LdMem? || s.LdxMem? then s.m else A_ATOM;
    assert from in AtomUse(s);
    assert v1[from] == v2[from];
    StoreLocal(tbl, v1, v2, Dest(s), v1[from], s, on, alter);
  }

  /** A statement's number depends only on the numbers it reads. */
  lemma StepLocal(tbl: Table, v1: Vals, v2: Vals, s: Stmt, on: set<Atom>, alter: bool)
    requires InTable(tbl, v1) && InTable(tbl, v2) && SameOn(v1, v2, on) && AtomUse(s) <= on
    ensures SameStep(OptStmt(VState(tbl, v1), s, alter), OptStmt(VState(tbl, v2), s, alter),
                     if AtomDef(s).Some? then on + {AtomDef(s).value} else on)
  {
    match s
    case AluK(op, k) =>
      assert A_ATOM in AtomUse(s);
      AluKLocal(tbl, v1, v2, op, k, on, alter);
    case AluX(op) =>
      assert A_ATOM in AtomUse(s) && X_ATOM in AtomUse(s);
      AluXLocal(tbl, v1, v2, op, on, alter);
    case Neg =>
      assert A_ATOM in AtomUse(s);
      NegLocal(tbl, v1, v2, on, alter);
    case LdInd(_, _) =>
      assert X_ATOM in AtomUse(s);
      IndLocal(tbl, v1, v2, s, on, alter);
    case Nop =>
    case LdAbs(size, k) => StoreKeyLocal(tbl, v1, v2, A_ATOM, KAbs(size, k), s, on, alter);
    case LdLen => StoreKeyLocal(tbl, v1, v2, A_ATOM, KLen, s, on, alter);
    case LdImm(k) => StoreKeyLocal(tbl, v1, v2, A_ATOM, KImm(k), s, on, alter);
    case LdxImm(k) => StoreKeyLocal(tbl, v1, v2, X_ATOM, KImm(k), s, on, alter);
    case LdxMsh(k) => StoreKeyLocal(tbl, v1, v2, X_ATOM, KMsh(k), s, on, alter);
    case _ => CopyLocal(tbl, v1, v2, s, on, alter);
  }

  lemma {:induction false} BlockLocal(tbl: Table, v1: Vals, v2: Vals, ss: seq<Stmt>, s: Branch, on: set<Atom>,
                                      alter: bool)
    requires InTable(tbl, v1) && InTable(tbl, v2) && SameOn(v1, v2, on) && Closed(ss, s, on)
    ensures var r1, r2 := OptStmts(VState(tbl, v1), ss, alter), OptStmts(VState(tbl, v2), ss, alter);
            && (r1.BDone? <==> r2.BDone?)
            && (r1.BDone? ==> r1.vs.tbl == r2.vs.tbl && SameOn(r1.vs.val, r2.vs.val, on + BranchUse(s)))
    decreases ss
  {
    if ss != [] {
      StepLocal(tbl, v1, v2, ss[0], on, alter);
      var r1, r2 := OptStmt(VState(tbl, v1), ss[0], alter), OptStmt(VState(tbl, v2), ss[0], alter);
      if r1.Done? {
        BlockLocal(r1.vs.tbl, r1.vs.val, r2.vs.val, ss[1..], s,
                   if AtomDef(ss[0]).Some? then on + {AtomDef(ss[0]).value} else on, alter);
      }
    }
  }

  /** Numbering fails only where running fails: a block that is numbered with an error aborts in every
      state its entry numbers explain. */
  lemma FailureIsAbort(vs: VState, ss: seq<Stmt>, alter: bool, st: State, p: Packet)
    requires Sound(vs, st, p) && AllReadsKnown(vs, ss, alter) && OptStmts(vs, ss, alter).BError?
    ensures ExecAll(ss, st, p).None?
  {
    if ExecAll(ss, st, p).Some? {
      BlockRight(vs, ss, alter, st, p);
    }
  }

  lemma FailedTableProper(g: Graph, g': Graph, root: nat, level: seq<int>, levels: seq<seq<nat>>, live: set<nat>,
                          n: Numbers, alter: bool, seen: set<nat>, b: nat, val: Vals)
    requires Levelled(g, root, level, levels, live) && BlocksClosed(g, root, live, {})
    requires FailsFrom(g, g', root, live, n, alter, seen, b, val)
    ensures Proper(n.tbl)
  {
    forall c | c in seen ensures ReadsKnownAt(g, n, alter, c) {
      ClosedReadsKnown(g, g', root, level, levels, live, {}, n, alter, seen, c);
    }
  }

  lemma ClosedFailureAborts(tbl: Table, val: Vals, ss: seq<Stmt>, s: Branch, alter: bool, st: State, p: Packet)
    requires Proper(tbl) && InTable(tbl, val) && Closed(ss, s, {}) && OptStmts(VState(tbl, val), ss, alter).BError?
    ensures ExecAll(ss, st, p).None?
  {
    BlockLocal(tbl, val, Unknown, ss, s, {}, alter);
    BlockKnown(VState(tbl, Unknown), ss, s, {}, alter);
    UnknownIsSound(tbl, st, p);
    FailureIsAbort(VState(tbl, Unknown), ss, alter, st, p);
  }

  lemma UnknownIsSound(tbl: Table, st: State, p: Packet)
    requires Proper(tbl)
    ensures Sound(VState(tbl, Unknown), st, p)
  {
  }

  /** A pass that stops at a block of a graph of self-contained blocks has found a block that aborts on
      every packet, whatever state it is entered in. */
  lemma FailedBlockAborts(g: Graph, root: nat, level: seq<int>, levels: seq<seq<nat>>, live: set<nat>, alter: bool,
                          b: nat, st: State, p: Packet)
    requires Levelled(g, root, level, levels, live) && BlocksClosed(g, root, live, {}) && Fails(g, root, live, alter, b)
    ensures b in live && ExecAll(g[b].stmts, st, p).None?
  {
    var g', n, seen :| FailsAt(g, g', root, live, n, alter, seen, b);
    var val :| FailsFrom(g, g', root, live, n, alter, seen, b, val);
    FailedTableProper(g, g', root, level, levels, live, n, alter, seen, b, val);
    ClosedFailureAborts(n.tbl, val, g[b].stmts, g[b].s, alter, st, p);
  }
}
