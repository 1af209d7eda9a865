/** Value numbering: the node table behind `F`, the symbolic evaluation and rewriting of statements
    (`opt_stmt`, `vstore`, `fold_op`), and what the numbers mean. */
module ValueNumbers {
  import opened Collections
  import opened Machine
  import opened Atoms

  /** What a value number stands for: an opcode with a constant or with other value numbers. */
  datatype Key =
    | KImm(k: Word)
    | KAbs(size: Size, k: Word)
    | KInd(size: Size, k: Word, v: nat)
    | KLen
    | KMsh(k: Word)
    | KNeg(v: nat)
    | KAlu(op: AluOp, src: Source, v0: nat, v1: nat)

  /** Number `n > 0` is defined by `tbl[n - 1]`; 0 means "unknown". */
  type Table = seq<Key>

  function Operands(k: Key): set<nat> {
    match k
    case KInd(_, _, v) => {v}
    case KNeg(v) => {v}
    case KAlu(_, _, v0, v1) => {v0, v1}
    case _ => {}
  }

  /** No key has two numbers. */
  predicate NoKeyTwice(tbl: Table) {
    forall i, j :: 0 <= i < j < |tbl| ==> tbl[i] != tbl[j]
  }

  /** Numbers are built from known, older numbers, and no key has two numbers. */
  predicate Proper(tbl: Table) {
    (forall i, v :: 0 <= i < |tbl| && v in Operands(tbl[i]) ==> 0 < v <= i) && NoKeyTwice(tbl)
  }

  function Lookup(tbl: Table, k: Key, n: nat): (r: nat)
    requires n <= |tbl|
    ensures r <= n
    ensures r > 0 ==> tbl[r - 1] == k
    ensures r == 0 ==> forall i :: 0 <= i < n ==> tbl[i] != k
  {
    if n == 0 then 0 else if tbl[n - 1] == k then n else Lookup(tbl, k, n - 1)
  }

  /** `F` as a map from keys to numbers: find the key's number or give it the next one. */
  function Intern(tbl: Table, k: Key): (r: (Table, nat))
    ensures tbl <= r.0 && 0 < r.1 <= |r.0| && r.0[r.1 - 1] == k && |r.0| <= |tbl| + 1
  {
    var n := Lookup(tbl, k, |tbl|);
    if n > 0 then (tbl, n) else (tbl + [k], |tbl| + 1)
  }

  lemma InternProper(tbl: Table, k: Key)
    requires Proper(tbl) && forall v :: v in Operands(k) ==> 0 < v <= |tbl|
    ensures Proper(Intern(tbl, k).0)
  {
  }

  lemma InternNoTwice(tbl: Table, k: Key)
    requires NoKeyTwice(tbl)
    ensures NoKeyTwice(Intern(tbl, k).0)
  {
  }

  /** The value a number stands for on a packet; `None` if computing it aborts. */
  function Meaning(tbl: Table, n: nat, p: Packet): Option<Word>
    requires Proper(tbl) && 0 < n <= |tbl|
    decreases n
  {
    match tbl[n - 1]
    case KImm(k) => Some(k)
    case KAbs(size, k) => p.load(size, k)
    case KInd(size, k, v) =>
      assert v in Operands(tbl[n - 1]);
      (match Meaning(tbl, v, p)
       case None => None
       case Some(x) => p.load(size, Offset(x, k)))
    case KLen => Some(p.wirelen)
    case KMsh(k) => HeaderLength(p.load(B, k))
    case KNeg(v) =>
      assert v in Operands(tbl[n - 1]);
      (match Meaning(tbl, v, p)
       case None => None
       case Some(a) => Some(Negate(a)))
    case KAlu(op, _, v0, v1) =>
      assert v0 in Operands(tbl[n - 1]) && v1 in Operands(tbl[n - 1]);
      (match Meaning(tbl, v0, p)
       case None => None
       case Some(a) =>
         match Meaning(tbl, v1, p)
         case None => None
         case Some(b) => Alu(op, a, b))
  }

  lemma {:induction false} MeaningStable(tbl: Table, tbl': Table, n: nat, p: Packet)
    requires Proper(tbl) && Proper(tbl') && tbl <= tbl' && 0 < n <= |tbl|
    ensures Meaning(tbl', n, p) == Meaning(tbl, n, p)
    decreases n
  {
    assert tbl'[n - 1] == tbl[n - 1];
    match tbl[n - 1]
    case KInd(_, _, v) =>
      assert v in Operands(tbl[n - 1]);
      MeaningStable(tbl, tbl', v, p);
    case KNeg(v) =>
      assert v in Operands(tbl[n - 1]);
      MeaningStable(tbl, tbl', v, p);
    case KAlu(_, _, v0, v1) =>
      assert v0 in Operands(tbl[n - 1]) && v1 in Operands(tbl[n - 1]);
      MeaningStable(tbl, tbl', v0, p);
      MeaningStable(tbl, tbl', v1, p);
    case _ =>
  }

  type Vals = v: seq<nat> | |v| == 18 witness [0, 0, 0, 0, 0, 0, 0, 0, 0, 0, 0, 0, 0, 0, 0, 0, 0, 0]

  const Unknown: Vals := [0, 0, 0, 0, 0, 0, 0, 0, 0, 0, 0, 0, 0, 0, 0, 0, 0, 0]

  predicate InTable(tbl: Table, val: Vals) {
    forall a: Atom :: val[a] <= |tbl|
  }

  /** Every known number in `val` stands for what the atom holds. */
  predicate Explains(tbl: Table, val: Vals, st: State, p: Packet)
    requires Proper(tbl) && InTable(tbl, val)
  {
    forall a: Atom :: val[a] != 0 ==> Meaning(tbl, val[a], p) == Some(st[a])
  }

  predicate IsConst(tbl: Table, n: nat)
    requires n <= |tbl|
  {
    n > 0 && tbl[n - 1].KImm?
  }

  function ConstOf(tbl: Table, n: nat): Word
    requires n <= |tbl| && IsConst(tbl, n)
  {
    tbl[n - 1].k
  }

  datatype VState = VState(tbl: Table, val: Vals)

  /** Result of one statement: the new numbers and the statement that stays, or the compiler's
      "division by zero" error. */
  datatype Step = Done(vs: VState, s: Stmt) | Error

  /** `step` adds at most `n` numbers to the table. */
  predicate Adds(vs: VState, step: Step, n: nat) {
    step.Done? ==> vs.tbl <= step.vs.tbl && |step.vs.tbl| <= |vs.tbl| + n && InTable(step.vs.tbl, step.vs.val)
  }

  /** `vstore`: when rewriting, storing the number already there deletes the statement. */
  function Store(vs: VState, a: Atom, v: nat, s: Stmt, alter: bool): (r: Step)
    requires InTable(vs.tbl, vs.val) && v <= |vs.tbl|
    ensures Adds(vs, r, 0)
  {
    if alter && vs.val[a] == v then Done(vs, Nop) else Done(vs.(val := vs.val[a := v]), s)
  }

  /** Number the key `k`, then store its number in `a`. */
  function StoreKey(vs: VState, a: Atom, k: Key, s: Stmt, alter: bool): (r: Step)
    requires InTable(vs.tbl, vs.val)
    ensures Adds(vs, r, 1)
  {
    var r := Intern(vs.tbl, k);
    Store(VState(r.0, vs.val), a, r.1, s, alter)
  }

  /** Number the key `k` and put its number in A, keeping the statement. */
  function SetA(vs: VState, k: Key, s: Stmt): (r: Step)
    requires InTable(vs.tbl, vs.val)
    ensures Adds(vs, r, 1)
  {
    var r := Intern(vs.tbl, k);
    Done(VState(r.0, vs.val[A_ATOM := r.1]), s)
  }

  /** `fold_op` and the load of its result. */
  function Fold(vs: VState, op: AluOp, a: Word, b: Word): (r: Step)
    requires InTable(vs.tbl, vs.val)
    ensures Adds(vs, r, 1)
  {
    match Alu(op, a, b)
    case None => Error
    case Some(w) => SetA(vs, KImm(w), LdImm(w))
  }

  function OptAluK(vs: VState, op: AluOp, k: Word, alter: bool): (r: Step)
    requires InTable(vs.tbl, vs.val)
    ensures Adds(vs, r, 2)
  {
    var a := vs.val[A_ATOM];
    if alter && k == 0 && (op.Add? || op.Lsh? || op.Rsh? || op.Or?) then Done(vs, Nop)
    else if alter && k == 0 && (op.Mul? || op.And?) then SetA(vs, KImm(k), LdImm(k))
    else
      var r := Intern(vs.tbl, KImm(k));
      if alter && IsConst(vs.tbl, a) then Fold(VState(r.0, vs.val), op, ConstOf(vs.tbl, a), k)
      else SetA(VState(r.0, vs.val), KAlu(op, FromK, a, r.1), AluK(op, k))
  }

  function OptAluX(vs: VState, op: AluOp, alter: bool): (r: Step)
    requires InTable(vs.tbl, vs.val)
    ensures Adds(vs, r, 2)
  {
    var a, x := vs.val[A_ATOM], vs.val[X_ATOM];
    if alter && IsConst(vs.tbl, x) then
      var k := ConstOf(vs.tbl, x);
      if IsConst(vs.tbl, a) then Fold(vs, op, ConstOf(vs.tbl, a), k)
      else
        var r := Intern(vs.tbl, KImm(k));
        SetA(VState(r.0, vs.val), KAlu(op, FromK, a, r.1), AluK(op, k))
    else if alter && IsConst(vs.tbl, a) && ConstOf(vs.tbl, a) == 0 && (op.Add? || op.Or?) then
      Store(vs, A_ATOM, x, Txa, alter)
    else if alter && IsConst(vs.tbl, a) && ConstOf(vs.tbl, a) == 0 && !op.Sub? then
      StoreKey(vs, A_ATOM, KImm(0), LdImm(0), alter)
    else SetA(vs, KAlu(op, FromX, a, x), AluX(op))
  }

  /** `opt_stmt`: evaluate a statement symbolically and, if `alter`, rewrite it.  At most two new
      numbers per statement, and none for a deleted one. */
  function OptStmt(vs: VState, s: Stmt, alter: bool): (r: Step)
    requires InTable(vs.tbl, vs.val)
    ensures Adds(vs, r, if s == Nop then 0 else 2)
  {
    var a, x := vs.val[A_ATOM], vs.val[X_ATOM];
    match s
    case Nop => Done(vs, s)
    case LdAbs(size, k) => StoreKey(vs, A_ATOM, KAbs(size, k), s, alter)
    case LdInd(size, k) =>
      if alter && IsConst(vs.tbl, x) then
        var k' := Offset(ConstOf(vs.tbl, x), k);
        StoreKey(vs, A_ATOM, KAbs(size, k'), LdAbs(size, k'), alter)
      else StoreKey(vs, A_ATOM, KInd(size, k, x), s, alter)
    case LdLen => StoreKey(vs, A_ATOM, KLen, s, alter)
    case LdImm(k) => StoreKey(vs, A_ATOM, KImm(k), s, alter)
    case LdxImm(k) => StoreKey(vs, X_ATOM, KImm(k), s, alter)
    case LdxMsh(k) => StoreKey(vs, X_ATOM, KMsh(k), s, alter)
    case Neg =>
      if alter && IsConst(vs.tbl, a) then
        var k := Negate(ConstOf(vs.tbl, a));
        SetA(vs, KImm(k), LdImm(k))
      else SetA(vs, KNeg(a), s)
    case AluK(op, k) => OptAluK(vs, op, k, alter)
    case AluX(op) => OptAluX(vs, op, alter)
    case Txa => Store(vs, A_ATOM, x, s, alter)
    case Tax => Store(vs, X_ATOM, a, s, alter)
    case LdMem(m) =>
      var v := vs.val[m];
      Store(vs, A_ATOM, v, if alter && IsConst(vs.tbl, v) then LdImm(ConstOf(vs.tbl, v)) else s, alter)
    case LdxMem(m) =>
      var v := vs.val[m];
      Store(vs, X_ATOM, v, if alter && IsConst(vs.tbl, v) then LdxImm(ConstOf(vs.tbl, v)) else s, alter)
    case St(m) => Store(vs, m, a, s, alter)
    case Stx(m) => Store(vs, m, x, s, alter)
  }

  lemma FoldNoTwice(vs: VState, op: AluOp, a: Word, b: Word)
    requires InTable(vs.tbl, vs.val) && NoKeyTwice(vs.tbl)
    ensures Fold(vs, op, a, b).Done? ==> NoKeyTwice(Fold(vs, op, a, b).vs.tbl)
  {
    match Alu(op, a, b)
    case None =>
    case Some(w) => InternNoTwice(vs.tbl, KImm(w));
  }

  lemma AluNoTwice(vs: VState, op: AluOp, src: Source, k: Word)
    requires InTable(vs.tbl, vs.val) && NoKeyTwice(vs.tbl)
    ensures var r := Intern(vs.tbl, KImm(k));
            NoKeyTwice(r.0) && NoKeyTwice(Intern(r.0, KAlu(op, src, vs.val[A_ATOM], r.1)).0)
  {
    var r := Intern(vs.tbl, KImm(k));
    InternNoTwice(vs.tbl, KImm(k));
    InternNoTwice(r.0, KAlu(op, src, vs.val[A_ATOM], r.1));
  }

  lemma OptAluKNoTwice(vs: VState, op: AluOp, k: Word, alter: bool)
    requires InTable(vs.tbl, vs.val) && NoKeyTwice(vs.tbl)
    ensures var r := OptAluK(vs, op, k, alter); r.Done? ==> NoKeyTwice(r.vs.tbl)
  {
    var a, r := vs.val[A_ATOM], Intern(vs.tbl, KImm(k));
    AluNoTwice(vs, op, FromK, k);
    if IsConst(vs.tbl, a) {
      FoldNoTwice(VState(r.0, vs.val), op, ConstOf(vs.tbl, a), k);
    }
  }

  lemma OptAluXNoTwice(vs: VState, op: AluOp, alter: bool)
    requires InTable(vs.tbl, vs.val) && NoKeyTwice(vs.tbl)
    ensures var r := OptAluX(vs, op, alter); r.Done? ==> NoKeyTwice(r.vs.tbl)
  {
    var a, x := vs.val[A_ATOM], vs.val[X_ATOM];
    InternNoTwice(vs.tbl, KAlu(op, FromX, a, x));
    InternNoTwice(vs.tbl, KImm(0));
    if IsConst(vs.tbl, x) {
      AluNoTwice(vs, op, FromK, ConstOf(vs.tbl, x));
      if IsConst(vs.tbl, a) {
        FoldNoTwice(vs, op, ConstOf(vs.tbl, a), ConstOf(vs.tbl, x));
      }
    }
  }

  lemma IndNoTwice(vs: VState, s: Stmt, alter: bool)
    requires InTable(vs.tbl, vs.val) && NoKeyTwice(vs.tbl) && s.LdInd?
    ensures var r := OptStmt(vs, s, alter); r.Done? ==> NoKeyTwice(r.vs.tbl)
  {
    var x := vs.val[X_ATOM];
    InternNoTwice(vs.tbl, KInd(s.size, s.k, x));
    if IsConst(vs.tbl, x) {
      InternNoTwice(vs.tbl, KAbs(s.size, Offset(ConstOf(vs.tbl, x), s.k)));
    }
  }

  lemma NegNoTwice(vs: VState, alter: bool)
    requires InTable(vs.tbl, vs.val) && NoKeyTwice(vs.tbl)
    ensures var r := OptStmt(vs, Neg, alter); r.Done? ==> NoKeyTwice(r.vs.tbl)
  {
    var a := vs.val[A_ATOM];
    InternNoTwice(vs.tbl, KNeg(a));
    if IsConst(vs.tbl, a) {
      InternNoTwice(vs.tbl, KImm(Negate(ConstOf(vs.tbl, a))));
    }
  }

  /** No statement gives a key a second number. */
  lemma StepNoTwice(vs: VState, s: Stmt, alter: bool)
    requires InTable(vs.tbl, vs.val) && NoKeyTwice(vs.tbl)
    ensures var r := OptStmt(vs, s, alter); r.Done? ==> NoKeyTwice(r.vs.tbl)
  {
    match s
    case LdAbs(size, k) => InternNoTwice(vs.tbl, KAbs(size, k));
    case LdInd(_, _) => IndNoTwice(vs, s, alter);
    case LdLen => InternNoTwice(vs.tbl, KLen);
    case LdImm(k) => InternNoTwice(vs.tbl, KImm(k));
    case LdxImm(k) => InternNoTwice(vs.tbl, KImm(k));
    case LdxMsh(k) => InternNoTwice(vs.tbl, KMsh(k));
    case Neg => NegNoTwice(vs, alter);
    case AluK(op, k) => OptAluKNoTwice(vs, op, k, alter);
    case AluX(op) => OptAluXNoTwice(vs, op, alter);
    case _ =>
  }

  /** The numbers are in order and explain the state. */
  predicate Sound(vs: VState, st: State, p: Packet) {
    Proper(vs.tbl) && InTable(vs.tbl, vs.val) && Explains(vs.tbl, vs.val, st, p)
  }

  /** What a right step does: from `st`, in which `vs` was sound, the statement that stays leads to the
      same state `st'` as the original, and the new numbers explain it. */
  predicate RightStep(vs: VState, step: Step, st: State, st': State, p: Packet) {
    step.Done? ==>
      && vs.tbl <= step.vs.tbl
      && Exec(step.s, st, p) == Some(st')
      && Sound(step.vs, st', p)
  }

  /** The statement reads only atoms with known numbers. */
  predicate ReadsKnown(val: Vals, s: Stmt) {
    forall a: Atom :: a in AtomUse(s) ==> val[a] != 0
  }

  lemma ExplainsStable(tbl: Table, tbl': Table, val: Vals, st: State, p: Packet)
    requires Proper(tbl) && Proper(tbl') && tbl <= tbl' && InTable(tbl, val) && Explains(tbl, val, st, p)
    ensures InTable(tbl', val) && Explains(tbl', val, st, p)
  {
    forall a: Atom | val[a] != 0 ensures Meaning(tbl', val[a], p) == Some(st[a]) {
      MeaningStable(tbl, tbl', val[a], p);
    }
  }

  lemma StoreRight(vs: VState, a: Atom, v: nat, s: Stmt, alter: bool, st: State, w: Word, p: Packet)
    requires Sound(vs, st, p) && 0 < v <= |vs.tbl| && Meaning(vs.tbl, v, p) == Some(w)
    requires Exec(s, st, p) == Some(st[a := w])
    ensures RightStep(vs, Store(vs, a, v, s, alter), st, st[a := w], p)
  {
    if alter && vs.val[a] == v {
      assert st[a := w] == st;
    }
  }

  lemma InternRight(vs: VState, k: Key, st: State, p: Packet)
    requires Sound(vs, st, p) && forall v :: v in Operands(k) ==> 0 < v <= |vs.tbl|
    ensures Sound(VState(Intern(vs.tbl, k).0, vs.val), st, p)
  {
    InternProper(vs.tbl, k);
    ExplainsStable(vs.tbl, Intern(vs.tbl, k).0, vs.val, st, p);
  }

  lemma StoreKeyRight(vs: VState, a: Atom, k: Key, s: Stmt, alter: bool, st: State, w: Word, p: Packet)
    requires Sound(vs, st, p) && forall v :: v in Operands(k) ==> 0 < v <= |vs.tbl|
    requires Sound(VState(Intern(vs.tbl, k).0, vs.val), st, p)
    requires Meaning(Intern(vs.tbl, k).0, Intern(vs.tbl, k).1, p) == Some(w)
    requires Exec(s, st, p) == Some(st[a := w])
    ensures RightStep(vs, StoreKey(vs, a, k, s, alter), st, st[a := w], p)
  {
    var r := Intern(vs.tbl, k);
    StoreRight(VState(r.0, vs.val), a, r.1, s, alter, st, w, p);
  }

  lemma SetARight(vs: VState, k: Key, s: Stmt, st: State, w: Word, p: Packet)
    requires InTable(vs.tbl, vs.val)
    requires Sound(VState(Intern(vs.tbl, k).0, vs.val), st, p)
    requires Meaning(Intern(vs.tbl, k).0, Intern(vs.tbl, k).1, p) == Some(w)
    requires Exec(s, st, p) == Some(st[A_ATOM := w])
    ensures RightStep(vs, SetA(vs, k, s), st, st[A_ATOM := w], p)
  {
  }

  /** Constants have the meaning they say. */
  lemma ConstMeaning(vs: VState, a: Atom, st: State, p: Packet)
    requires Sound(vs, st, p) && IsConst(vs.tbl, vs.val[a])
    ensures st[a] == ConstOf(vs.tbl, vs.val[a])
  {
    assert Meaning(vs.tbl, vs.val[a], p) == Some(st[a]);
  }

  lemma LoadRight(vs: VState, s: Stmt, alter: bool, st: State, p: Packet)
    requires Sound(vs, st, p) && ReadsKnown(vs.val, s) && Exec(s, st, p).Some?
    requires s.LdAbs? || s.LdLen? || s.LdImm? || s.LdxImm? || s.LdxMsh?
    ensures RightStep(vs, OptStmt(vs, s, alter), st, Exec(s, st, p).value, p)
  {
    var k := match s
      case LdAbs(size, k) => KAbs(size, k)
      case LdLen => KLen
      case LdImm(k) => KImm(k)
      case LdxImm(k) => KImm(k)
      case LdxMsh(k) => KMsh(k)
      case _ => KLen;
    InternRight(vs, k, st, p);
    StoreKeyRight(vs, Dest(s), k, s, alter, st, Value(s, st, p).value, p);
  }

  lemma IndRight(vs: VState, s: Stmt, alter: bool, st: State, p: Packet)
    requires Sound(vs, st, p) && ReadsKnown(vs.val, s) && Exec(s, st, p).Some? && s.LdInd?
    ensures RightStep(vs, OptStmt(vs, s, alter), st, Exec(s, st, p).value, p)
  {
    var x := vs.val[X_ATOM];
    assert X_ATOM in AtomUse(s);
    var w := Value(s, st, p).value;
    if alter && IsConst(vs.tbl, x) {
      ConstMeaning(vs, X_ATOM, st, p);
      var k' := Offset(ConstOf(vs.tbl, x), s.k);
      InternRight(vs, KAbs(s.size, k'), st, p);
      StoreKeyRight(vs, A_ATOM, KAbs(s.size, k'), LdAbs(s.size, k'), alter, st, w, p);
    } else {
      InternRight(vs, KInd(s.size, s.k, x), st, p);
      MeaningStable(vs.tbl, Intern(vs.tbl, KInd(s.size, s.k, x)).0, x, p);
      StoreKeyRight(vs, A_ATOM, KInd(s.size, s.k, x), s, alter, st, w, p);
    }
  }

  lemma CopyRight(vs: VState, s: Stmt, alter: bool, st: State, p: Packet)
    requires Sound(vs, st, p) && ReadsKnown(vs.val, s) && Exec(s, st, p).Some?
    requires s.Txa? || s.Tax? || s.LdMem? || s.LdxMem? || s.St? || s.Stx?
    ensures RightStep(vs, OptStmt(vs, s, alter), st, Exec(s, st, p).value, p)
  {
    var from: Atom := if s.Txa? || s.Stx? then X_ATOM else if s.LdMem? || s.LdxMem? then s.m else A_ATOM;
    assert from in AtomUse(s);
    var v := vs.val[from];
    var s' := if alter && s.LdMem? && IsConst(vs.tbl, v) then LdImm(ConstOf(vs.tbl, v))
              else if alter && s.LdxMem? && IsConst(vs.tbl, v) then LdxImm(ConstOf(vs.tbl, v))
              else s;
    if IsConst(vs.tbl, v) {
      ConstMeaning(vs, from, st, p);
    }
    StoreRight(vs, Dest(s), v, s', alter, st, st[from], p);
  }

  lemma NegRight(vs: VState, alter: bool, st: State, p: Packet)
    requires Sound(vs, st, p) && vs.val[A_ATOM] != 0
    ensures RightStep(vs, OptStmt(vs, Neg, alter), st, Exec(Neg, st, p).value, p)
  {
    if alter && IsConst(vs.tbl, vs.val[A_ATOM]) {
      ConstMeaning(vs, A_ATOM, st, p);
      NegConst(vs, Negate(st[A_ATOM]), st, p);
    } else {
      NegNumber(vs, vs.val[A_ATOM], Negate(st[A_ATOM]), st, p);
    }
  }

  lemma NegConst(vs: VState, k: Word, st: State, p: Packet)
    requires Sound(vs, st, p)
    ensures RightStep(vs, SetA(vs, KImm(k), LdImm(k)), st, st[A_ATOM := k], p)
  {
    InternRight(vs, KImm(k), st, p);
    SetARight(vs, KImm(k), LdImm(k), st, k, p);
  }

  lemma NegNumber(vs: VState, a: nat, w: Word, st: State, p: Packet)
    requires Sound(vs, st, p) && a == vs.val[A_ATOM] != 0 && w == Negate(st[A_ATOM])
    ensures RightStep(vs, SetA(vs, KNeg(a), Neg), st, st[A_ATOM := w], p)
  {
    InternRight(vs, KNeg(a), st, p);
    MeaningStable(vs.tbl, Intern(vs.tbl, KNeg(a)).0, a, p);
    SetARight(vs, KNeg(a), Neg, st, w, p);
  }

  lemma FoldRight(vs: VState, op: AluOp, a: Word, b: Word, st: State, w: Word, p: Packet)
    requires Sound(vs, st, p) && Alu(op, a, b) == Some(w)
    ensures RightStep(vs, Fold(vs, op, a, b), st, st[A_ATOM := w], p)
  {
    InternRight(vs, KImm(w), st, p);
    SetARight(vs, KImm(w), LdImm(w), st, w, p);
  }

  /** An arithmetic number: A's number, combined with a number that stands for `b`. */
  lemma AluNumber(vs: VState, op: AluOp, src: Source, v1: nat, s: Stmt, b: Word, st: State, w: Word, p: Packet)
    requires Sound(vs, st, p) && vs.val[A_ATOM] != 0 && 0 < v1 <= |vs.tbl| && Meaning(vs.tbl, v1, p) == Some(b)
    requires Alu(op, st[A_ATOM], b) == Some(w) && Exec(s, st, p) == Some(st[A_ATOM := w])
    ensures RightStep(vs, SetA(vs, KAlu(op, src, vs.val[A_ATOM], v1), s), st, st[A_ATOM := w], p)
  {
    var k := KAlu(op, src, vs.val[A_ATOM], v1);
    InternRight(vs, k, st, p);
    MeaningStable(vs.tbl, Intern(vs.tbl, k).0, vs.val[A_ATOM], p);
    MeaningStable(vs.tbl, Intern(vs.tbl, k).0, v1, p);
    SetARight(vs, k, s, st, w, p);
  }

  lemma ZeroOperand(op: AluOp, a: Word)
    ensures op.Add? || op.Lsh? || op.Rsh? || op.Or? ==> Alu(op, a, 0) == Some(a)
    ensures op.Mul? || op.And? ==> Alu(op, a, 0) == Some(0)
  {
  }

  lemma ZeroAdd(b: Word)
    ensures Alu(Add, 0, b) == Some(b)
  {
  }

  lemma ZeroOr(b: Word)
    ensures Alu(Or, 0, b) == Some(b)
  {
  }

  lemma ZeroMul(b: Word)
    ensures Alu(Mul, 0, b) == Some(0)
  {
  }

  lemma ZeroDiv(b: Word)
    ensures b != 0 ==> Alu(Div, 0, b) == Some(0)
  {
  }

  lemma ZeroAnd(b: Word)
    ensures Alu(And, 0, b) == Some(0)
  {
  }

  lemma ZeroShifts(b: Word)
    ensures Alu(Lsh, 0, b) == Some(0) && Alu(Rsh, 0, b) == Some(0)
  {
  }

  /** What an operation other than subtraction makes of A = 0. */
  lemma ZeroAccumulator(op: AluOp, b: Word)
    requires !op.Sub?
    ensures Alu(op, 0, b) in {Some(if op.Add? || op.Or? then b else 0), None}
  {
    match op
    case Add => ZeroAdd(b);
    case Or => ZeroOr(b);
    case Mul => ZeroMul(b);
    case Div => ZeroDiv(b);
    case And => ZeroAnd(b);
    case Lsh => ZeroShifts(b);
    case Rsh => ZeroShifts(b);
  }

  lemma Extended(vs: VState, tbl: Table, step: Step, st: State, st': State, p: Packet)
    requires vs.tbl <= tbl && RightStep(VState(tbl, vs.val), step, st, st', p)
    ensures RightStep(vs, step, st, st', p)
  {
  }

  /** Operating with a known constant. */
  lemma ConstOperand(vs: VState, op: AluOp, k: Word, st: State, w: Word, p: Packet)
    requires Sound(vs, st, p) && vs.val[A_ATOM] != 0 && Alu(op, st[A_ATOM], k) == Some(w)
    ensures var r := Intern(vs.tbl, KImm(k));
            RightStep(vs, SetA(VState(r.0, vs.val), KAlu(op, FromK, vs.val[A_ATOM], r.1), AluK(op, k)), st,
                      st[A_ATOM := w], p)
  {
    var r := Intern(vs.tbl, KImm(k));
    InternRight(vs, KImm(k), st, p);
    AluNumber(VState(r.0, vs.val), op, FromK, r.1, AluK(op, k), k, st, w, p);
    Extended(vs, r.0, SetA(VState(r.0, vs.val), KAlu(op, FromK, vs.val[A_ATOM], r.1), AluK(op, k)), st,
             st[A_ATOM := w], p);
  }

  lemma FoldAfterConst(vs: VState, op: AluOp, k: Word, st: State, w: Word, p: Packet)
    requires Sound(vs, st, p) && Alu(op, st[A_ATOM], k) == Some(w)
    ensures RightStep(vs, Fold(VState(Intern(vs.tbl, KImm(k)).0, vs.val), op, st[A_ATOM], k), st, st[A_ATOM := w], p)
  {
    var r := Intern(vs.tbl, KImm(k));
    InternRight(vs, KImm(k), st, p);
    FoldRight(VState(r.0, vs.val), op, st[A_ATOM], k, st, w, p);
    Extended(vs, r.0, Fold(VState(r.0, vs.val), op, st[A_ATOM], k), st, st[A_ATOM := w], p);
  }

  /** Operating with 0 leaves A alone or clears it. */
  lemma AluKZero(vs: VState, op: AluOp, st: State, w: Word, p: Packet)
    requires Sound(vs, st, p)
    requires if op.Mul? || op.And? then w == 0 else (op.Add? || op.Lsh? || op.Rsh? || op.Or?) && w == st[A_ATOM]
    ensures RightStep(vs, OptAluK(vs, op, 0, true), st, st[A_ATOM := w], p)
  {
    if op.Mul? || op.And? {
      InternRight(vs, KImm(0), st, p);
      SetARight(vs, KImm(0), LdImm(0), st, w, p);
    } else {
      assert st[A_ATOM := w] == st;
    }
  }

  lemma AluZeroRight(vs: VState, op: AluOp, st: State, w: Word, p: Packet)
    requires Sound(vs, st, p) && Alu(op, st[A_ATOM], 0) == Some(w)
    requires op.Add? || op.Lsh? || op.Rsh? || op.Or? || op.Mul? || op.And?
    ensures RightStep(vs, OptAluK(vs, op, 0, true), st, st[A_ATOM := w], p)
  {
    ZeroOperand(op, st[A_ATOM]);
    AluKZero(vs, op, st, w, p);
  }

  lemma AluKRight(vs: VState, op: AluOp, k: Word, alter: bool, st: State, w: Word, p: Packet)
    requires Sound(vs, st, p) && vs.val[A_ATOM] != 0 && Alu(op, st[A_ATOM], k) == Some(w)
    ensures RightStep(vs, OptAluK(vs, op, k, alter), st, st[A_ATOM := w], p)
  {
    if alter && k == 0 && (op.Add? || op.Lsh? || op.Rsh? || op.Or? || op.Mul? || op.And?) {
      AluZeroRight(vs, op, st, w, p);
    } else if alter && IsConst(vs.tbl, vs.val[A_ATOM]) {
      ConstMeaning(vs, A_ATOM, st, p);
      FoldAfterConst(vs, op, k, st, w, p);
    } else {
      ConstOperand(vs, op, k, st, w, p);
    }
  }

  /** X is a known constant. */
  lemma AluConstX(vs: VState, op: AluOp, st: State, w: Word, p: Packet)
    requires Sound(vs, st, p) && vs.val[A_ATOM] != 0 && IsConst(vs.tbl, vs.val[X_ATOM])
    requires Alu(op, st[A_ATOM], st[X_ATOM]) == Some(w)
    ensures RightStep(vs, OptAluX(vs, op, true), st, st[A_ATOM := w], p)
  {
    ConstMeaning(vs, X_ATOM, st, p);
    if IsConst(vs.tbl, vs.val[A_ATOM]) {
      ConstMeaning(vs, A_ATOM, st, p);
      assert OptAluX(vs, op, true) == Fold(vs, op, st[A_ATOM], st[X_ATOM]);
      FoldRight(vs, op, st[A_ATOM], st[X_ATOM], st, w, p);
    } else {
      var r := Intern(vs.tbl, KImm(st[X_ATOM]));
      assert OptAluX(vs, op, true) ==
             SetA(VState(r.0, vs.val), KAlu(op, FromK, vs.val[A_ATOM], r.1), AluK(op, st[X_ATOM]));
      ConstOperand(vs, op, st[X_ATOM], st, w, p);
    }
  }

  /** A is the constant 0: adding or or-ing X is a copy. */
  lemma ZeroPlusX(vs: VState, op: AluOp, st: State, p: Packet)
    requires Sound(vs, st, p) && vs.val[X_ATOM] != 0 && !IsConst(vs.tbl, vs.val[X_ATOM]) && (op.Add? || op.Or?)
    requires IsConst(vs.tbl, vs.val[A_ATOM]) && ConstOf(vs.tbl, vs.val[A_ATOM]) == 0
    ensures RightStep(vs, OptAluX(vs, op, true), st, st[A_ATOM := st[X_ATOM]], p)
  {
    StoreRight(vs, A_ATOM, vs.val[X_ATOM], Txa, true, st, st[X_ATOM], p);
  }

  /** A is the constant 0: any other operation but subtraction leaves 0. */
  lemma ZeroTimesX(vs: VState, op: AluOp, st: State, p: Packet)
    requires Sound(vs, st, p) && !IsConst(vs.tbl, vs.val[X_ATOM]) && !op.Add? && !op.Or? && !op.Sub?
    requires IsConst(vs.tbl, vs.val[A_ATOM]) && ConstOf(vs.tbl, vs.val[A_ATOM]) == 0
    ensures RightStep(vs, OptAluX(vs, op, true), st, st[A_ATOM := 0], p)
  {
    InternRight(vs, KImm(0), st, p);
    StoreKeyRight(vs, A_ATOM, KImm(0), LdImm(0), true, st, 0, p);
  }

  lemma AluZeroA(vs: VState, op: AluOp, st: State, w: Word, p: Packet)
    requires Sound(vs, st, p) && vs.val[X_ATOM] != 0 && !IsConst(vs.tbl, vs.val[X_ATOM]) && !op.Sub?
    requires IsConst(vs.tbl, vs.val[A_ATOM]) && ConstOf(vs.tbl, vs.val[A_ATOM]) == 0
    requires Alu(op, st[A_ATOM], st[X_ATOM]) == Some(w)
    ensures RightStep(vs, OptAluX(vs, op, true), st, st[A_ATOM := w], p)
  {
    ConstMeaning(vs, A_ATOM, st, p);
    ZeroAccumulator(op, st[X_ATOM]);
    if op.Add? || op.Or? {
      ZeroPlusX(vs, op, st, p);
    } else {
      ZeroTimesX(vs, op, st, p);
    }
  }

  lemma AluExec(op: AluOp, st: State, w: Word, p: Packet)
    requires Alu(op, st[A_ATOM], st[X_ATOM]) == Some(w)
    ensures Exec(AluX(op), st, p) == Some(st[A_ATOM := w])
  {
  }

  lemma AluPlain(vs: VState, op: AluOp, st: State, w: Word, p: Packet)
    requires Sound(vs, st, p) && vs.val[A_ATOM] != 0 && vs.val[X_ATOM] != 0
    requires Alu(op, st[A_ATOM], st[X_ATOM]) == Some(w)
    ensures RightStep(vs, SetA(vs, KAlu(op, FromX, vs.val[A_ATOM], vs.val[X_ATOM]), AluX(op)), st, st[A_ATOM := w], p)
  {
    AluExec(op, st, w, p);
    AluNumber(vs, op, FromX, vs.val[X_ATOM], AluX(op), st[X_ATOM], st, w, p);
  }

  lemma AluXRight(vs: VState, op: AluOp, alter: bool, st: State, w: Word, p: Packet)
    requires Sound(vs, st, p) && vs.val[A_ATOM] != 0 && vs.val[X_ATOM] != 0
    requires Alu(op, st[A_ATOM], st[X_ATOM]) == Some(w)
    ensures RightStep(vs, OptAluX(vs, op, alter), st, st[A_ATOM := w], p)
  {
    var a, x := vs.val[A_ATOM], vs.val[X_ATOM];
    if alter && IsConst(vs.tbl, x) {
      AluConstX(vs, op, st, w, p);
    } else if alter && IsConst(vs.tbl, a) && ConstOf(vs.tbl, a) == 0 && !op.Sub? {
      AluZeroA(vs, op, st, w, p);
    } else {
      assert OptAluX(vs, op, alter) == SetA(vs, KAlu(op, FromX, a, x), AluX(op));
      AluPlain(vs, op, st, w, p);
    }
  }

  /** Folding, strengthening and deleting leave the state after each statement unchanged. */
  lemma OptStmtRight(vs: VState, s: Stmt, alter: bool, st: State, p: Packet)
    requires Sound(vs, st, p) && ReadsKnown(vs.val, s) && Exec(s, st, p).Some?
    ensures RightStep(vs, OptStmt(vs, s, alter), st, Exec(s, st, p).value, p)
  {
    match s
    case Nop =>
    case LdInd(_, _) => IndRight(vs, s, alter, st, p);
    case Neg =>
      assert A_ATOM in AtomUse(s);
      NegRight(vs, alter, st, p);
    case AluK(op, k) =>
      assert A_ATOM in AtomUse(s);
      AluKRight(vs, op, k, alter, st, Value(s, st, p).value, p);
    case AluX(op) =>
      assert A_ATOM in AtomUse(s) && X_ATOM in AtomUse(s);
      AluXRight(vs, op, alter, st, Value(s, st, p).value, p);
    case LdAbs(_, _) => LoadRight(vs, s, alter, st, p);
    case LdLen => LoadRight(vs, s, alter, st, p);
    case LdImm(_) => LoadRight(vs, s, alter, st, p);
    case LdxImm(_) => LoadRight(vs, s, alter, st, p);
    case LdxMsh(_) => LoadRight(vs, s, alter, st, p);
    case Txa => CopyRight(vs, s, alter, st, p);
    case Tax => CopyRight(vs, s, alter, st, p);
    case LdMem(_) => CopyRight(vs, s, alter, st, p);
    case LdxMem(_) => CopyRight(vs, s, alter, st, p);
    case St(_) => CopyRight(vs, s, alter, st, p);
    case Stx(_) => CopyRight(vs, s, alter, st, p);
  }

  /** What was known is known, and so is `a`; and a table in order is still in order. */
  predicate StaysKnown(vs: VState, step: Step, a: Option<Atom>) {
    step.Done? ==>
      && (Proper(vs.tbl) ==> Proper(step.vs.tbl))
      && forall c: Atom :: vs.val[c] != 0 || a == Some(c) ==> step.vs.val[c] != 0
  }

  predicate KnownKey(tbl: Table, k: Key) {
    forall v :: v in Operands(k) ==> 0 < v <= |tbl|
  }

  lemma StoreKeyKnown(vs: VState, a: Atom, k: Key, s: Stmt, alter: bool)
    requires InTable(vs.tbl, vs.val) && KnownKey(vs.tbl, k)
    ensures StaysKnown(vs, StoreKey(vs, a, k, s, alter), Some(a))
  {
    if Proper(vs.tbl) {
      InternProper(vs.tbl, k);
    }
  }

  lemma SetAKnown(vs: VState, tbl: Table, k: Key, s: Stmt)
    requires (Proper(vs.tbl) ==> Proper(tbl)) && InTable(tbl, vs.val) && KnownKey(tbl, k)
    ensures StaysKnown(vs, SetA(VState(tbl, vs.val), k, s), Some(A_ATOM))
  {
    if Proper(vs.tbl) {
      InternProper(tbl, k);
    }
  }

  lemma ConstProper(tbl: Table, k: Word)
    ensures Proper(tbl) ==> Proper(Intern(tbl, KImm(k)).0)
  {
    if Proper(tbl) {
      InternProper(tbl, KImm(k));
    }
  }

  lemma AluKKnown(vs: VState, op: AluOp, k: Word, alter: bool)
    requires InTable(vs.tbl, vs.val) && vs.val[A_ATOM] != 0
    ensures StaysKnown(vs, OptAluK(vs, op, k, alter), Some(A_ATOM))
  {
    var a := vs.val[A_ATOM];
    if alter && k == 0 && (op.Add? || op.Lsh? || op.Rsh? || op.Or?) {
    } else if alter && k == 0 && (op.Mul? || op.And?) {
      SetAKnown(vs, vs.tbl, KImm(k), LdImm(k));
    } else {
      var r := Intern(vs.tbl, KImm(k));
      ConstProper(vs.tbl, k);
      if alter && IsConst(vs.tbl, a) {
        FoldKnown(vs, r.0, op, ConstOf(vs.tbl, a), k);
      } else {
        SetAKnown(vs, r.0, KAlu(op, FromK, a, r.1), AluK(op, k));
      }
    }
  }

  lemma FoldKnown(vs: VState, tbl: Table, op: AluOp, a: Word, b: Word)
    requires (Proper(vs.tbl) ==> Proper(tbl)) && InTable(tbl, vs.val)
    ensures StaysKnown(vs, Fold(VState(tbl, vs.val), op, a, b), Some(A_ATOM))
  {
    match Alu(op, a, b)
    case None =>
    case Some(w) => SetAKnown(vs, tbl, KImm(w), LdImm(w));
  }

  lemma ConstXKnown(vs: VState, op: AluOp)
    requires InTable(vs.tbl, vs.val) && vs.val[A_ATOM] != 0 && IsConst(vs.tbl, vs.val[X_ATOM])
    ensures StaysKnown(vs, OptAluX(vs, op, true), Some(A_ATOM))
  {
    var a, k := vs.val[A_ATOM], ConstOf(vs.tbl, vs.val[X_ATOM]);
    if IsConst(vs.tbl, a) {
      FoldKnown(vs, vs.tbl, op, ConstOf(vs.tbl, a), k);
    } else {
      var r := Intern(vs.tbl, KImm(k));
      ConstProper(vs.tbl, k);
      SetAKnown(vs, r.0, KAlu(op, FromK, a, r.1), AluK(op, k));
    }
  }

  lemma AluXKnown(vs: VState, op: AluOp, alter: bool)
    requires InTable(vs.tbl, vs.val) && vs.val[A_ATOM] != 0 && vs.val[X_ATOM] != 0
    ensures StaysKnown(vs, OptAluX(vs, op, alter), Some(A_ATOM))
  {
    var a, x := vs.val[A_ATOM], vs.val[X_ATOM];
    if alter && IsConst(vs.tbl, x) {
      ConstXKnown(vs, op);
    } else if alter && IsConst(vs.tbl, a) && ConstOf(vs.tbl, a) == 0 && !op.Sub? {
      StoreKeyKnown(vs, A_ATOM, KImm(0), LdImm(0), alter);
    } else {
      SetAKnown(vs, vs.tbl, KAlu(op, FromX, a, x), AluX(op));
    }
  }

  lemma CopyKnown(vs: VState, s: Stmt, alter: bool)
    requires InTable(vs.tbl, vs.val) && ReadsKnown(vs.val, s)
    requires s.Nop? || s.Txa? || s.Tax? || s.LdMem? || s.LdxMem? || s.St? || s.Stx?
    ensures StaysKnown(vs, OptStmt(vs, s, alter), AtomDef(s))
  {
  }

  lemma IndKnown(vs: VState, s: Stmt, alter: bool)
    requires InTable(vs.tbl, vs.val) && s.LdInd? && vs.val[X_ATOM] != 0
    ensures StaysKnown(vs, OptStmt(vs, s, alter), Some(A_ATOM))
  {
    var x := vs.val[X_ATOM];
    if alter && IsConst(vs.tbl, x) {
      var k' := Offset(ConstOf(vs.tbl, x), s.k);
      StoreKeyKnown(vs, A_ATOM, KAbs(s.size, k'), LdAbs(s.size, k'), alter);
    } else {
      StoreKeyKnown(vs, A_ATOM, KInd(s.size, s.k, x), s, alter);
    }
  }

  lemma NegKnown(vs: VState, alter: bool)
    requires InTable(vs.tbl, vs.val) && vs.val[A_ATOM] != 0
    ensures StaysKnown(vs, OptStmt(vs, Neg, alter), Some(A_ATOM))
  {
    var a := vs.val[A_ATOM];
    if alter && IsConst(vs.tbl, a) {
      SetAKnown(vs, vs.tbl, KImm(Negate(ConstOf(vs.tbl, a))), LdImm(Negate(ConstOf(vs.tbl, a))));
    } else {
      SetAKnown(vs, vs.tbl, KNeg(a), Neg);
    }
  }

  /** A statement that reads known atoms leaves what was known, and what it defines, known. */
  lemma StepKnown(vs: VState, s: Stmt, alter: bool)
    requires InTable(vs.tbl, vs.val) && ReadsKnown(vs.val, s)
    ensures StaysKnown(vs, OptStmt(vs, s, alter), AtomDef(s))
  {
    match s
    case LdAbs(size, k) => StoreKeyKnown(vs, A_ATOM, KAbs(size, k), s, alter);
    case LdInd(size, k) =>
      assert X_ATOM in AtomUse(s);
      IndKnown(vs, s, alter);
    case LdLen => StoreKeyKnown(vs, A_ATOM, KLen, s, alter);
    case LdImm(k) => StoreKeyKnown(vs, A_ATOM, KImm(k), s, alter);
    case LdxImm(k) => StoreKeyKnown(vs, X_ATOM, KImm(k), s, alter);
    case LdxMsh(k) => StoreKeyKnown(vs, X_ATOM, KMsh(k), s, alter);
    case Neg =>
      assert A_ATOM in AtomUse(s);
      NegKnown(vs, alter);
    case AluK(op, k) =>
      assert A_ATOM in AtomUse(s);
      AluKKnown(vs, op, k, alter);
    case AluX(op) =>
      assert A_ATOM in AtomUse(s) && X_ATOM in AtomUse(s);
      AluXKnown(vs, op, alter);
    case _ => CopyKnown(vs, s, alter);
  }

  lemma FoldWorks(vs: VState, op: AluOp, a: Word, b: Word)
    requires InTable(vs.tbl, vs.val) && Alu(op, a, b).Some?
    ensures Fold(vs, op, a, b).Done?
  {
  }

  lemma AluKWorks(vs: VState, op: AluOp, k: Word, alter: bool, st: State, p: Packet)
    requires Sound(vs, st, p) && Alu(op, st[A_ATOM], k).Some?
    ensures OptAluK(vs, op, k, alter).Done?
  {
    if alter && IsConst(vs.tbl, vs.val[A_ATOM]) {
      ConstMeaning(vs, A_ATOM, st, p);
      FoldWorks(VState(Intern(vs.tbl, KImm(k)).0, vs.val), op, st[A_ATOM], k);
    }
  }

  lemma AluXFailsByFolding(vs: VState, op: AluOp, alter: bool)
    requires InTable(vs.tbl, vs.val) && OptAluX(vs, op, alter).Error?
    ensures var a, x := vs.val[A_ATOM], vs.val[X_ATOM];
            alter && IsConst(vs.tbl, a) && IsConst(vs.tbl, x)
            && Fold(vs, op, ConstOf(vs.tbl, a), ConstOf(vs.tbl, x)).Error?
  {
  }

  lemma AluXWorks(vs: VState, op: AluOp, alter: bool, st: State, p: Packet)
    requires Sound(vs, st, p) && Alu(op, st[A_ATOM], st[X_ATOM]).Some?
    ensures OptAluX(vs, op, alter).Done?
  {
    FoldWorks(vs, op, st[A_ATOM], st[X_ATOM]);
    if OptAluX(vs, op, alter).Error? {
      AluXFailsByFolding(vs, op, alter);
      ConstMeaning(vs, A_ATOM, st, p);
      ConstMeaning(vs, X_ATOM, st, p);
    }
  }

  lemma AluValues(s: Stmt, st: State, p: Packet)
    requires Exec(s, st, p).Some?
    ensures s.AluK? ==> Alu(s.op, st[A_ATOM], s.k).Some?
    ensures s.AluX? ==> Alu(s.op, st[A_ATOM], st[X_ATOM]).Some?
  {
  }

  /** The "division by zero" error is raised only for a statement that does divide by zero. */
  lemma OptStmtWorks(vs: VState, s: Stmt, alter: bool, st: State, p: Packet)
    requires Sound(vs, st, p) && Exec(s, st, p).Some?
    ensures OptStmt(vs, s, alter).Done?
  {
    AluValues(s, st, p);
    match s
    case AluK(op, k) => AluKWorks(vs, op, k, alter, st, p);
    case AluX(op) => AluXWorks(vs, op, alter, st, p);
    case _ => OtherWorks(vs, s, alter);
  }

  lemma OtherWorks(vs: VState, s: Stmt, alter: bool)
    requires InTable(vs.tbl, vs.val) && !s.AluK? && !s.AluX?
    ensures OptStmt(vs, s, alter).Done?
  {
  }
}
