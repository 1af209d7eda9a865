/** What `opt_stmt` must rewrite, and to what: constants in A and X, addresses, and stores of what is there. */
module ConstantFolding {
  import opened Collections
  import opened Machine
  import opened Words
  import opened Arithmetic
  import opened ValueNumbers

  predicate Known(vs: VState, a: Atom)
    requires InTable(vs.tbl, vs.val)
  {
    IsConst(vs.tbl, vs.val[a])
  }

  function Constant(vs: VState, a: Atom): Word
    requires InTable(vs.tbl, vs.val) && Known(vs, a)
  {
    ConstOf(vs.tbl, vs.val[a])
  }

  /** `step` loads the result of the operation, or is the error if there is none. */
  ghost predicate Folded(step: Step, op: AluOp, x: nat, y: nat) {
    if op.Div? && y == 0 then step.Error?
    else step.Done? && step.s.LdImm? && Computes(op, x, y, Num(step.s.k))
  }

  /** `fold_op` */
  lemma FoldRight(vs: VState, op: AluOp, a: Word, b: Word)
    requires InTable(vs.tbl, vs.val)
    ensures var r := Fold(vs, op, a, b);
            Folded(r, op, Num(a), Num(b)) && (r.Done? ==> Known(r.vs, A_ATOM) && Constant(r.vs, A_ATOM) == r.s.k)
  {
    AluRight(op, a, b);
  }

  /** An operation on a known A and a constant is done now, or deleted if it adds, shifts by or joins 0. */
  lemma ConstantOperand(vs: VState, op: AluOp, k: Word)
    requires InTable(vs.tbl, vs.val) && Known(vs, A_ATOM)
    ensures var r := OptStmt(vs, AluK(op, k), true);
            if k == 0 && (op.Add? || op.Lsh? || op.Rsh? || op.Or?) then r == Done(vs, Nop)
            else Folded(r, op, Num(Constant(vs, A_ATOM)), Num(k))
  {
    if k == 0 && (op.Mul? || op.And?) {
      ZeroIsRight(vs, op, Constant(vs, A_ATOM));
    } else {
      FoldRight(VState(Intern(vs.tbl, KImm(k)).0, vs.val), op, Constant(vs, A_ATOM), k);
    }
  }

  lemma ZeroIsRight(vs: VState, op: AluOp, a: Word)
    requires InTable(vs.tbl, vs.val) && (op.Mul? || op.And?)
    ensures Folded(SetA(vs, KImm(0), LdImm(0)), op, Num(a), Num(0))
  {
    ZeroOperand(op, a);
    AluRight(op, a, 0);
  }

  /** Whatever A is, adding, shifting by or joining 0 is deleted, and multiplying by or masking with 0 loads 0. */
  lemma ZeroConstant(vs: VState, op: AluOp)
    requires InTable(vs.tbl, vs.val)
    ensures var r := OptStmt(vs, AluK(op, 0), true);
            && (op.Add? || op.Lsh? || op.Rsh? || op.Or? ==> r == Done(vs, Nop))
            && (op.Mul? || op.And? ==>
                  r.Done? && r.s == LdImm(0) && Known(r.vs, A_ATOM) && Constant(r.vs, A_ATOM) == 0)
  {
  }

  /** With a known X instead of the constant, the same; with X alone known, it becomes an operation with that
      constant. */
  lemma ConstantX(vs: VState, op: AluOp)
    requires InTable(vs.tbl, vs.val) && Known(vs, X_ATOM)
    ensures var r := OptStmt(vs, AluX(op), true);
            if Known(vs, A_ATOM) then Folded(r, op, Num(Constant(vs, A_ATOM)), Num(Constant(vs, X_ATOM)))
            else r.Done? && r.s == AluK(op, Constant(vs, X_ATOM))
  {
    if Known(vs, A_ATOM) {
      FoldRight(vs, op, Constant(vs, A_ATOM), Constant(vs, X_ATOM));
    }
  }

  /** Adding an unknown X to 0, or joining it with 0, transfers it; any other operation on 0 but subtraction is 0. */
  lemma ZeroA(vs: VState, op: AluOp)
    requires InTable(vs.tbl, vs.val) && !Known(vs, X_ATOM) && Known(vs, A_ATOM) && Constant(vs, A_ATOM) == 0 && !op.Sub?
    ensures var r := OptStmt(vs, AluX(op), true);
            r.Done? && r.s in {Nop, if op.Add? || op.Or? then Txa else LdImm(0)}
  {
  }

  /** A known index makes an indexed load an absolute one; */
  lemma KnownIndex(vs: VState, size: Size, k: Word)
    requires InTable(vs.tbl, vs.val) && Known(vs, X_ATOM)
    ensures var r := OptStmt(vs, LdInd(size, k), true);
            r.Done? && (r.s == Nop || (r.s.LdAbs? && r.s.size == size &&
                                       Num(r.s.k) == (Num(Constant(vs, X_ATOM)) + Num(k)) % 0x1_0000_0000))
  {
    OffsetRight(Constant(vs, X_ATOM), k);
  }

  /** a known A is negated now; */
  lemma KnownNegated(vs: VState)
    requires InTable(vs.tbl, vs.val) && Known(vs, A_ATOM)
    ensures var r := OptStmt(vs, Neg, true);
            r.Done? && r.s.LdImm? && Num(r.s.k) == (0 - Num(Constant(vs, A_ATOM)) as int) % 0x1_0000_0000
  {
    NegateRight(Constant(vs, A_ATOM));
  }

  /** and a known word of memory is loaded as a constant. */
  lemma KnownSlot(vs: VState, m: Slot)
    requires InTable(vs.tbl, vs.val) && Known(vs, m)
    ensures var r, r' := OptStmt(vs, LdMem(m), true), OptStmt(vs, LdxMem(m), true);
            r.Done? && r'.Done? && r.s in {Nop, LdImm(Constant(vs, m))} && r'.s in {Nop, LdxImm(Constant(vs, m))}
  {
  }

  /** A load, store or transfer is deleted exactly when it changes no number. */
  lemma DeletedExactly(vs: VState, s: Stmt)
    requires InTable(vs.tbl, vs.val) && s != Nop && !s.AluK? && !s.AluX? && !s.Neg?
    ensures var r := OptStmt(vs, s, true); r.Done? && (r.s == Nop <==> r.vs.val == vs.val)
  {
  }
}
