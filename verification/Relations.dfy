/** Comparisons of arithmetic expressions (`gen_relation`): what their test blocks decide, and that they
    meet what the optimizer relies on. */
module Relations {
  import opened Collections
  import opened Machine
  import opened Atoms
  import opened Liveness
  import opened Peephole
  import opened ArithCode
  import opened ArithGen
  import F = FilterExpr

  /** The statements after both operands: an equality is tested on the difference. */
  function RelTail(op: JmpOp, rl: Slot, rr: Slot): seq<Stmt> {
    [LdxMem(rr), LdMem(rl)] + if op.Jeq? then [AluX(Sub)] else []
  }

  function RelBranch(op: JmpOp): Branch {
    if op.Jeq? then Jmp(Jeq, FromK, 0) else Jmp(op, FromX, 0)
  }

  function RelTest(op: JmpOp, l: Placed, r: Placed, nl: Word): F.Test {
    F.Test(Code(l, nl) + (Code(r, nl) + RelTail(op, Reg(l), Reg(r))), RelBranch(op))
  }

  /** What a relation means. */
  function Relation(op: JmpOp, l: Arith, r: Arith, reversed: bool, nl: Word, p: Packet): Option<bool>
    requires GoodSizes(l) && GoodSizes(r)
  {
    match Eval(l, nl, p)
    case None => None
    case Some(a) =>
      match Eval(r, nl, p)
      case None => None
      case Some(b) => Some(Compare(op, a, b) != reversed)
  }

  lemma DifferenceZero(a: Word, b: Word, d: Word)
    requires Alu(Sub, a, b) == Some(d)
    ensures d == 0 <==> a == b
  {
    SubtractThenCompare(a, b, d, 0);
    OffsetZero(b);
  }

  lemma SubExec(st: State, p: Packet) returns (d: Word)
    ensures Exec(AluX(Sub), st, p) == Some(st[A_ATOM := d]) && (d == 0 <==> st[A_ATOM] == st[X_ATOM])
  {
    d := Alu(Sub, st[A_ATOM], st[X_ATOM]).value;
    DifferenceZero(st[A_ATOM], st[X_ATOM], d);
  }

  lemma EqualityDecides(rl: Slot, rr: Slot, t: State, p: Packet)
    ensures ExecAll(RelTail(Jeq, rl, rr), t, p).Some?
    ensures ExecAll(RelTail(Jeq, rl, rr), t, p).value[A_ATOM] == 0 <==> t[rl] == t[rr]
  {
    OperandsLoaded(rl, rr, [AluX(Sub)], t, p);
    assert [AluX(Sub)] == [AluX(Sub)] + [];
    var t1 := t[X_ATOM := t[rr]][A_ATOM := t[rl]];
    Exec1(AluX(Sub), [], t1, p);
    var d := SubExec(t1, p);
  }

  lemma TailDecides(op: JmpOp, rl: Slot, rr: Slot, t: State, p: Packet)
    ensures ExecAll(RelTail(op, rl, rr), t, p).Some?
    ensures Taken(RelBranch(op), ExecAll(RelTail(op, rl, rr), t, p).value) <==> Compare(op, t[rl], t[rr])
  {
    if op.Jeq? {
      EqualityDecides(rl, rr, t, p);
    } else {
      OperandsLoaded(rl, rr, [], t, p);
    }
  }

  /** From any state, the relation's own test exits true exactly when the comparison holds. */
  lemma RelTestRight(op: JmpOp, l: Placed, r: Placed, el: Arith, er: Arith, used: set<Slot>, nl: Word, st: State,
                     p: Packet)
    requires Places(l, el) && Places(r, er) && GoodSizes(el) && GoodSizes(er)
    requires Allocated(l, used) && Allocated(r, used + {Reg(l)})
    ensures var test := RelTest(op, l, r, nl);
            match Relation(op, el, er, false, nl, p)
            case None => ExecAll(test.stmts, st, p).None?
            case Some(v) => ExecAll(test.stmts, st, p).Some? && (Taken(test.s, ExecAll(test.stmts, st, p).value) <==> v)
  {
    var vl, vr, tail := Eval(el, nl, p), Eval(er, nl, p), RelTail(op, Reg(l), Reg(r));
    CodeRight(l, el, nl, used, st, p);
    if vl.Some? {
      CodeRight(r, er, nl, used + {Reg(l)}, ExecAll(Code(l, nl), st, p).value, p);
    }
    BothDelivered(Code(l, nl), Code(r, nl), tail, vl, vr, Reg(l), Reg(r), st, used, p);
    if vl.Some? && vr.Some? {
      TailDecides(op, Reg(l), Reg(r), ExecAll(Code(r, nl), ExecAll(Code(l, nl), st, p).value, p).value, p);
    }
  }

  function DefsOf(ss: seq<Stmt>): set<Atom> {
    if ss == [] then {} else DefSet(ss[0]) + DefsOf(ss[1..])
  }

  lemma {:induction false} DefsAppend(s1: seq<Stmt>, s2: seq<Stmt>)
    ensures DefsOf(s1 + s2) == DefsOf(s1) + DefsOf(s2)
  {
    if s1 == [] {
      assert s1 + s2 == s2;
    } else {
      assert (s1 + s2)[1..] == s1[1..] + s2;
      DefsAppend(s1[1..], s2);
    }
  }

  lemma {:induction false} ClosedMore(ss: seq<Stmt>, s: Branch, def: set<Atom>, def': set<Atom>)
    requires Closed(ss, s, def) && def <= def'
    ensures Closed(ss, s, def')
  {
    if ss != [] {
      ClosedMore(ss[1..], s, if AtomDef(ss[0]).Some? then def + {AtomDef(ss[0]).value} else def,
                 if AtomDef(ss[0]).Some? then def' + {AtomDef(ss[0]).value} else def');
    }
  }

  const Falls: Branch := RetK(0)

  /** Self-contained code may be followed by code that reads what it has written. */
  lemma {:induction false} ClosedAppend(s1: seq<Stmt>, s2: seq<Stmt>, s: Branch, def: set<Atom>)
    requires Closed(s1, Falls, def) && Closed(s2, s, def + DefsOf(s1))
    ensures Closed(s1 + s2, s, def)
  {
    if s1 == [] {
      assert s1 + s2 == s2 && def + {} == def;
    } else {
      assert (s1 + s2)[1..] == s1[1..] + s2;
      var def' := if AtomDef(s1[0]).Some? then def + {AtomDef(s1[0]).value} else def;
      assert def + DefsOf(s1) == def' + DefsOf(s1[1..]);
      ClosedAppend(s1[1..], s2, s, def');
    }
  }

  lemma CodeCons(x: Stmt, rest: seq<Stmt>, s: Branch, def: set<Atom>)
    requires AtomUse(x) <= def && Closed(rest, s, def + DefSet(x))
    ensures Closed([x] + rest, s, def) && DefsOf([x] + rest) == DefSet(x) + DefsOf(rest)
  {
    ClosedCons(x, rest, s, def);
    if AtomDef(x).None? {
      assert def + DefSet(x) == def;
    }
  }

  lemma ClosedStep(x: Stmt, rest: seq<Stmt>, s: Branch, def: set<Atom>, def': set<Atom>)
    requires AtomUse(x) <= def && Closed(rest, s, def') && def' <= def + DefSet(x)
    ensures Closed([x] + rest, s, def)
  {
    ClosedMore(rest, s, def', def + DefSet(x));
    CodeCons(x, rest, s, def);
  }

  lemma ClosedStore(reg: Slot, def: set<Atom>)
    requires A_ATOM in def
    ensures Closed([St(reg)], Falls, def) && DefsOf([St(reg)]) == {reg}
  {
    assert [St(reg)] == [St(reg)] + [];
    CodeCons(St(reg), [], Falls, def);
  }

  lemma FetchClosed(base: Base, size: Size, i: Slot, reg: Slot, nl: Word)
    ensures Closed(Fetch(base, size, i, nl) + [St(reg)], Falls, {i})
    ensures reg in DefsOf(Fetch(base, size, i, nl) + [St(reg)])
  {
    DefsAppend(Fetch(base, size, i, nl), [St(reg)]);
    ClosedStore(reg, {i, X_ATOM, A_ATOM});
    if base.Transport? {
      TransportClosed(size, i, reg, nl);
    } else {
      var k := if base.Link? then 0 else nl;
      assert {i, X_ATOM} + {A_ATOM} == {i, X_ATOM, A_ATOM} && {i} + {X_ATOM} == {i, X_ATOM};
      CodeCons(LdInd(size, k), [St(reg)], Falls, {i, X_ATOM});
      CodeCons(LdxMem(i), [LdInd(size, k)] + [St(reg)], Falls, {i});
      assert Fetch(base, size, i, nl) + [St(reg)] == [LdxMem(i)] + ([LdInd(size, k)] + [St(reg)]);
    }
  }

  lemma AddLoadClosed(size: Size, reg: Slot, nl: Word, all: set<Atom>)
    requires A_ATOM in all && X_ATOM in all
    ensures Closed([AluX(Add), Tax, LdInd(size, nl), St(reg)], Falls, all)
  {
    var r2 := [LdInd(size, nl)] + [St(reg)];
    ClosedStore(reg, all);
    ClosedStep(LdInd(size, nl), [St(reg)], Falls, all, all);
    ClosedStep(Tax, r2, Falls, all, all);
    ClosedStep(AluX(Add), [Tax] + r2, Falls, all, all);
    assert [AluX(Add), Tax, LdInd(size, nl), St(reg)] == [AluX(Add)] + ([Tax] + r2);
  }

  lemma TransportClosed(size: Size, i: Slot, reg: Slot, nl: Word)
    ensures Closed(Fetch(Transport, size, i, nl) + [St(reg)], Falls, {i})
  {
    var rest := [AluX(Add), Tax, LdInd(size, nl), St(reg)];
    AddLoadClosed(size, reg, nl, {i, X_ATOM, A_ATOM});
    ClosedStep(LdMem(i), rest, Falls, {i, X_ATOM}, {i, X_ATOM, A_ATOM});
    ClosedStep(LdxMsh(nl), [LdMem(i)] + rest, Falls, {i}, {i, X_ATOM});
    assert Fetch(Transport, size, i, nl) + [St(reg)] == [LdxMsh(nl)] + ([LdMem(i)] + rest);
  }

  lemma MinusTailClosed(r: Slot, def: set<Atom>)
    requires r in def
    ensures Closed([LdMem(r), Neg, St(r)], Falls, def)
  {
    ClosedStore(r, def + {A_ATOM} + {A_ATOM});
    CodeCons(Neg, [St(r)], Falls, def + {A_ATOM});
    CodeCons(LdMem(r), [Neg] + [St(r)], Falls, def);
    assert [LdMem(r), Neg, St(r)] == [LdMem(r)] + ([Neg] + [St(r)]);
  }

  /** Loading both operands makes A and X available to what follows. */
  lemma OperandsClosed(rl: Slot, rr: Slot, rest: seq<Stmt>, s: Branch, def: set<Atom>)
    requires rl in def && rr in def && Closed(rest, s, def + {X_ATOM} + {A_ATOM})
    ensures Closed([LdxMem(rr), LdMem(rl)] + rest, s, def) && DefsOf(rest) <= DefsOf([LdxMem(rr), LdMem(rl)] + rest)
  {
    CodeCons(LdMem(rl), rest, s, def + {X_ATOM});
    CodeCons(LdxMem(rr), [LdMem(rl)] + rest, s, def);
    assert [LdxMem(rr), LdMem(rl)] + rest == [LdxMem(rr)] + ([LdMem(rl)] + rest);
  }

  lemma BinTailClosed(op: AluOp, rl: Slot, rr: Slot, reg: Slot, def: set<Atom>)
    requires rl in def && rr in def
    ensures var tail := [LdxMem(rr), LdMem(rl), AluX(op), St(reg)]; Closed(tail, Falls, def) && reg in DefsOf(tail)
  {
    ClosedStore(reg, def + {X_ATOM} + {A_ATOM} + {A_ATOM});
    CodeCons(AluX(op), [St(reg)], Falls, def + {X_ATOM} + {A_ATOM});
    OperandsClosed(rl, rr, [AluX(op)] + [St(reg)], Falls, def);
    assert [LdxMem(rr), LdMem(rl), AluX(op), St(reg)] == [LdxMem(rr), LdMem(rl)] + ([AluX(op)] + [St(reg)]);
  }

  /** Operand code reads nothing it has not written, and writes its register. */
  lemma {:induction false} CodeClosed(t: Placed, nl: Word)
    ensures Closed(Code(t, nl), Falls, {}) && Reg(t) in DefsOf(Code(t, nl))
  {
    match t
    case PNum(k, reg) =>
      ClosedStore(reg, {} + {A_ATOM});
      CodeCons(LdImm(k), [St(reg)], Falls, {});
      assert Code(t, nl) == [LdImm(k)] + [St(reg)];
    case PLen(reg) =>
      ClosedStore(reg, {} + {A_ATOM});
      CodeCons(LdLen, [St(reg)], Falls, {});
      assert Code(t, nl) == [LdLen] + [St(reg)];
    case PLoad(base, size, i, reg) =>
      var tail := Fetch(base, size, Reg(i), nl) + [St(reg)];
      CodeClosed(i, nl);
      FetchClosed(base, size, Reg(i), reg, nl);
      ClosedMore(tail, Falls, {Reg(i)}, {} + DefsOf(Code(i, nl)));
      ClosedAppend(Code(i, nl), tail, Falls, {});
      DefsAppend(Code(i, nl), tail);
    case PMinus(e) =>
      var tail := [LdMem(Reg(e)), Neg, St(Reg(e))];
      CodeClosed(e, nl);
      MinusTailClosed(Reg(e), {} + DefsOf(Code(e, nl)));
      ClosedAppend(Code(e, nl), tail, Falls, {});
      DefsAppend(Code(e, nl), tail);
    case PBin(op, l, r, reg) =>
      CodeClosed(l, nl);
      CodeClosed(r, nl);
      BinClosed(op, l, r, reg, nl);
  }

  lemma BinClosed(op: AluOp, l: Placed, r: Placed, reg: Slot, nl: Word)
    requires Closed(Code(l, nl), Falls, {}) && Reg(l) in DefsOf(Code(l, nl))
    requires Closed(Code(r, nl), Falls, {}) && Reg(r) in DefsOf(Code(r, nl))
    ensures Closed(Code(PBin(op, l, r, reg), nl), Falls, {}) && reg in DefsOf(Code(PBin(op, l, r, reg), nl))
  {
    var sl, sr, tail := Code(l, nl), Code(r, nl), [LdxMem(Reg(r)), LdMem(Reg(l)), AluX(op), St(reg)];
    BinTailClosed(op, Reg(l), Reg(r), reg, DefsOf(sl) + DefsOf(sr));
    PairClosed(sl, sr, tail, Falls);
    DefsAppend(sr, tail);
    DefsAppend(sl, sr + tail);
  }

  lemma PairClosed(sl: seq<Stmt>, sr: seq<Stmt>, tail: seq<Stmt>, s: Branch)
    requires Closed(sl, Falls, {}) && Closed(sr, Falls, {}) && Closed(tail, s, DefsOf(sl) + DefsOf(sr))
    ensures Closed(sl + (sr + tail), s, {})
  {
    ClosedMore(sr, Falls, {}, {} + DefsOf(sl));
    assert {} + DefsOf(sl) + DefsOf(sr) == DefsOf(sl) + DefsOf(sr);
    ClosedAppend(sr, tail, s, {} + DefsOf(sl));
    ClosedAppend(sl, sr + tail, s, {});
  }

  /** A relation's test block is self-contained. */
  lemma RelTestClosed(op: JmpOp, l: Placed, r: Placed, nl: Word)
    ensures F.SelfContained(RelTest(op, l, r, nl))
  {
    var tail := RelTail(op, Reg(l), Reg(r));
    CodeClosed(l, nl);
    CodeClosed(r, nl);
    var def := DefsOf(Code(l, nl)) + DefsOf(Code(r, nl));
    RelTailClosed(op, Reg(l), Reg(r), def);
    PairClosed(Code(l, nl), Code(r, nl), tail, RelBranch(op));
  }

  lemma RelTailClosed(op: JmpOp, rl: Slot, rr: Slot, def: set<Atom>)
    requires rl in def && rr in def
    ensures Closed(RelTail(op, rl, rr), RelBranch(op), def)
  {
    var def' := def + {X_ATOM} + {A_ATOM};
    if op.Jeq? {
      CodeCons(AluX(Sub), [], RelBranch(op), def');
      assert [AluX(Sub)] == [AluX(Sub)] + [];
      OperandsClosed(rl, rr, [AluX(Sub)], RelBranch(op), def);
    } else {
      OperandsClosed(rl, rr, [], RelBranch(op), def);
    }
  }

  lemma FreshCons(x: Stmt, rest: seq<Stmt>, s: Branch)
    requires NoLateX(rest, s) && (x.LdInd? ==> DeadX(rest, s))
    ensures NoLateX([x] + rest, s)
    ensures DeadX([x] + rest, s) <==> X_ATOM !in AtomUse(x) && (AtomDef(x) == Some(X_ATOM) || DeadX(rest, s))
  {
    var ss := [x] + rest;
    assert ss[1..] == rest;
    forall j | 0 <= j < |ss| && ss[j].LdInd? ensures DeadX(ss[j + 1..], s) {
      assert j > 0 ==> rest[j - 1].LdInd?;
      assert ss[j + 1..] == rest[j..];
    }
  }

  lemma Cons4(a: Stmt, b: Stmt, c: Stmt, d: Stmt, rest: seq<Stmt>, s: Branch)
    requires NoLateX(rest, s) && DeadX(rest, s) && AtomDef(a) == Some(X_ATOM) && X_ATOM !in AtomUse(a)
    requires !b.LdInd? && !c.LdInd? && !d.LdInd?
    ensures NoLateX([a, b, c, d] + rest, s) && DeadX([a, b, c, d] + rest, s)
  {
    FreshCons(d, rest, s);
    FreshCons(c, [d] + rest, s);
    FreshCons(b, [c] + ([d] + rest), s);
    FreshCons(a, [b] + ([c] + ([d] + rest)), s);
    assert [a, b, c, d] + rest == [a] + ([b] + ([c] + ([d] + rest)));
  }

  lemma Cons3(a: Stmt, b: Stmt, c: Stmt, rest: seq<Stmt>, s: Branch)
    requires NoLateX(rest, s) && DeadX(rest, s)
    requires !a.LdInd? && !b.LdInd? && !c.LdInd? && X_ATOM !in AtomUse(a) + AtomUse(b) + AtomUse(c)
    ensures NoLateX([a, b, c] + rest, s) && DeadX([a, b, c] + rest, s)
  {
    FreshCons(c, rest, s);
    FreshCons(b, [c] + rest, s);
    FreshCons(a, [b] + ([c] + rest), s);
    assert [a, b, c] + rest == [a] + ([b] + ([c] + rest));
  }

  lemma LoadStoreFresh(size: Size, k: Word, reg: Slot, rest: seq<Stmt>, s: Branch)
    requires NoLateX(rest, s) && DeadX(rest, s)
    ensures NoLateX([LdInd(size, k), St(reg)] + rest, s)
  {
    FreshCons(St(reg), rest, s);
    FreshCons(LdInd(size, k), [St(reg)] + rest, s);
    assert [LdInd(size, k), St(reg)] + rest == [LdInd(size, k)] + ([St(reg)] + rest);
  }

  lemma TransportFresh(i: Slot, nl: Word, rest: seq<Stmt>, s: Branch)
    requires NoLateX(rest, s)
    ensures NoLateX([LdxMsh(nl), LdMem(i), AluX(Add), Tax] + rest, s)
    ensures DeadX([LdxMsh(nl), LdMem(i), AluX(Add), Tax] + rest, s)
  {
    FreshCons(Tax, rest, s);
    FreshCons(AluX(Add), [Tax] + rest, s);
    FreshCons(LdMem(i), [AluX(Add)] + ([Tax] + rest), s);
    FreshCons(LdxMsh(nl), [LdMem(i)] + ([AluX(Add)] + ([Tax] + rest)), s);
    assert [LdxMsh(nl), LdMem(i), AluX(Add), Tax] + rest ==
      [LdxMsh(nl)] + ([LdMem(i)] + ([AluX(Add)] + ([Tax] + rest)));
  }

  lemma FetchFresh(base: Base, size: Size, i: Slot, reg: Slot, nl: Word, rest: seq<Stmt>, s: Branch)
    requires NoLateX(rest, s) && DeadX(rest, s)
    ensures var ss := (Fetch(base, size, i, nl) + [St(reg)]) + rest; NoLateX(ss, s) && DeadX(ss, s)
  {
    var k := if base.Link? then 0 else nl;
    var r2 := [LdInd(size, k), St(reg)] + rest;
    LoadStoreFresh(size, k, reg, rest, s);
    if base.Transport? {
      TransportFresh(i, nl, r2, s);
      assert (Fetch(base, size, i, nl) + [St(reg)]) + rest == [LdxMsh(nl), LdMem(i), AluX(Add), Tax] + r2;
    } else {
      FreshCons(LdxMem(i), r2, s);
      assert (Fetch(base, size, i, nl) + [St(reg)]) + rest == [LdxMem(i)] + r2;
    }
  }

  lemma Assoc(a: seq<Stmt>, b: seq<Stmt>, c: seq<Stmt>)
    ensures (a + b) + c == a + (b + c)
  {
  }

  lemma Leaf2Fresh(a: Stmt, reg: Slot, rest: seq<Stmt>, s: Branch)
    requires NoLateX(rest, s) && DeadX(rest, s) && !a.LdInd? && X_ATOM !in AtomUse(a)
    ensures NoLateX([a, St(reg)] + rest, s) && DeadX([a, St(reg)] + rest, s)
  {
    FreshCons(St(reg), rest, s);
    FreshCons(a, [St(reg)] + rest, s);
    assert [a, St(reg)] + rest == [a] + ([St(reg)] + rest);
  }

  /** Operand code never reads X after an indexed load, nor the X it was entered with. */
  lemma {:induction false} CodeFresh(t: Placed, nl: Word, rest: seq<Stmt>, s: Branch)
    requires NoLateX(rest, s) && DeadX(rest, s)
    ensures NoLateX(Code(t, nl) + rest, s) && DeadX(Code(t, nl) + rest, s)
    decreases t, 1
  {
    match t
    case PNum(k, reg) => Leaf2Fresh(LdImm(k), reg, rest, s);
    case PLen(reg) => Leaf2Fresh(LdLen, reg, rest, s);
    case PLoad(base, size, i, reg) =>
      FetchFresh(base, size, Reg(i), reg, nl, rest, s);
      CodeFresh(i, nl, (Fetch(base, size, Reg(i), nl) + [St(reg)]) + rest, s);
      Assoc(Code(i, nl), Fetch(base, size, Reg(i), nl) + [St(reg)], rest);
    case PMinus(e) =>
      Cons3(LdMem(Reg(e)), Neg, St(Reg(e)), rest, s);
      CodeFresh(e, nl, [LdMem(Reg(e)), Neg, St(Reg(e))] + rest, s);
      Assoc(Code(e, nl), [LdMem(Reg(e)), Neg, St(Reg(e))], rest);
    case PBin(_, _, _, _) => BinFresh(t, nl, rest, s);
  }

  lemma {:induction false} BinFresh(t: Placed, nl: Word, rest: seq<Stmt>, s: Branch)
    requires t.PBin? && NoLateX(rest, s) && DeadX(rest, s)
    ensures NoLateX(Code(t, nl) + rest, s) && DeadX(Code(t, nl) + rest, s)
    decreases t, 0
  {
    var sl, sr, tail := Code(t.l, nl), Code(t.r, nl), [LdxMem(Reg(t.r)), LdMem(Reg(t.l)), AluX(t.op), St(t.reg)];
    Cons4(LdxMem(Reg(t.r)), LdMem(Reg(t.l)), AluX(t.op), St(t.reg), rest, s);
    CodeFresh(t.r, nl, tail + rest, s);
    Assoc(sr, tail, rest);
    CodeFresh(t.l, nl, (sr + tail) + rest, s);
    Assoc(sl, sr + tail, rest);
  }

  /** So a relation's test block meets what the constant-index rewrite takes for granted. */
  lemma RelTestFresh(op: JmpOp, l: Placed, r: Placed, nl: Word)
    ensures NoLateX(RelTest(op, l, r, nl).stmts, RelBranch(op))
    ensures forall outUse: set<Atom> :: FreshX(RelTest(op, l, r, nl).stmts, RelBranch(op), outUse, 0)
  {
    var s, tail := RelBranch(op), RelTail(op, Reg(l), Reg(r));
    assert NoLateX(tail, s);
    assert tail[0] == LdxMem(Reg(r));
    CodeFresh(r, nl, tail, s);
    CodeFresh(l, nl, Code(r, nl) + tail, s);
  }

  /** `gen_relation`, protocol checks aside: build the test and give both registers back. */
  method GenRelation(regs: Registers, op: JmpOp, a0: Arth, a1: Arth, reversed: bool, ghost t0: Placed,
                     ghost t1: Placed) returns (b: F.Expr)
    requires regs.Valid() && Holds(a0, t0, regs.nl) && Holds(a1, t1, regs.nl)
    modifies regs.regused
    ensures regs.Valid() && regs.Used() == old(regs.Used()) - {a0.regno, a1.regno}
    ensures var leaf := F.Leaf(RelTest(op, t0, t1, regs.nl)); b == if reversed then F.Not(leaf) else leaf
  {
    var stmts := a0.s + (a1.s + ([LdxMem(a1.regno), LdMem(a0.regno)] + if op.Jeq? then [AluX(Sub)] else []));
    b := F.Leaf(F.Test(stmts, if op.Jeq? then Jmp(Jeq, FromK, 0) else Jmp(op, FromX, 0)));
    if reversed {
      b := F.Not(b);
    }
    regs.FreeBoth(a0.regno, a1.regno);
  }

  /** The meaning of a compiled relation. */
  ghost predicate Decides(b: F.Expr, op: JmpOp, l: Arith, r: Arith, reversed: bool, nl: Word)
    requires GoodSizes(l) && GoodSizes(r)
  {
    F.Proper(b) && forall p: Packet :: F.Eval(b, p) == Relation(op, l, r, reversed, nl, p)
  }

  lemma RelationDecides(op: JmpOp, t0: Placed, t1: Placed, l: Arith, r: Arith, reversed: bool, used: set<Slot>,
                        nl: Word)
    requires Places(t0, l) && Places(t1, r) && GoodSizes(l) && GoodSizes(r)
    requires Allocated(t0, used) && Allocated(t1, used + {Reg(t0)})
    ensures var leaf := F.Leaf(RelTest(op, t0, t1, nl));
            Decides(if reversed then F.Not(leaf) else leaf, op, l, r, reversed, nl)
  {
    RelTestClosed(op, t0, t1, nl);
    var leaf := F.Leaf(RelTest(op, t0, t1, nl));
    assert F.Proper(leaf);
    forall p: Packet ensures F.Eval(if reversed then F.Not(leaf) else leaf, p) == Relation(op, l, r, reversed, nl, p) {
      RelTestRight(op, t0, t1, l, r, used, nl, F.ZeroState, p);
      assert F.Eval(leaf, p) == Relation(op, l, r, false, nl, p);
    }
  }

  /** A whole comparison: it compiles exactly when both operands fit, decides what the comparison says,
      and leaves the register table as it found it. */
  method CompileRelation(regs: Registers, op: JmpOp, l: Arith, r: Arith, reversed: bool) returns (b: Option<F.Expr>)
    requires regs.Valid()
    modifies regs, regs.regused
    ensures regs.Valid()
    ensures b.Some? <==> Fits(l, |old(regs.Used())|) && Fits(r, |old(regs.Used())| + 1)
    ensures b.Some? ==> Decides(b.value, op, l, r, reversed, regs.nl) && regs.Used() == old(regs.Used())
  {
    ghost var used := regs.Used();
    ghost var t0, t1;
    var a0, a1;
    a0, t0 := regs.GenExpr(l, used);
    if a0.None? {
      return None;
    }
    assert |used + {a0.value.regno}| == |used| + 1;
    a1, t1 := regs.GenExpr(r, used + {a0.value.regno});
    if a1.None? {
      return None;
    }
    RelationDecides(op, t0, t1, l, r, reversed, used, regs.nl);
    var e := GenRelation(regs, op, a0.value, a1.value, reversed, t0, t1);
    return Some(e);
  }
}
