/** Arithmetic expressions of the filter language, and the code for them once scratch registers have
    been chosen. */
module ArithCode {
  import opened Collections
  import opened Machine

  /** What an indexed load is relative to: the link-layer, network-layer or IPv4 transport header. */
  datatype Base = Link | Network | Transport

  /** An expression; a load's size in bytes is as the user wrote it. */
  datatype Arith =
    | Num(k: Word)
    | Len
    | Load(base: Base, bytes: int, index: Arith)
    | Minus(e: Arith)
    | Bin(op: AluOp, l: Arith, r: Arith)

  function SizeOf(bytes: int): Option<Size> {
    if bytes == 1 then Some(B) else if bytes == 2 then Some(H) else if bytes == 4 then Some(W) else None
  }

  predicate GoodSizes(e: Arith) {
    match e
    case Load(_, bytes, i) => SizeOf(bytes).Some? && GoodSizes(i)
    case Minus(e1) => GoodSizes(e1)
    case Bin(_, l, r) => GoodSizes(l) && GoodSizes(r)
    case _ => true
  }

  /** The item an index refers to; the network header is at `nl`. */
  function Item(base: Base, size: Size, x: Word, nl: Word, p: Packet): Option<Word> {
    match base
    case Link => p.load(size, x)
    case Network => p.load(size, Offset(x, nl))
    case Transport =>
      match HeaderLength(p.load(B, nl))
      case None => None
      case Some(h) => p.load(size, Offset(Offset(x, h), nl))
  }

  /** The value of an expression; `None` if a load is out of range or a divisor is zero. */
  function Eval(e: Arith, nl: Word, p: Packet): Option<Word>
    requires GoodSizes(e)
  {
    match e
    case Num(k) => Some(k)
    case Len => Some(p.wirelen)
    case Load(base, bytes, i) =>
      (match Eval(i, nl, p)
       case None => None
       case Some(x) => Item(base, SizeOf(bytes).value, x, nl, p))
    case Minus(e1) =>
      (match Eval(e1, nl, p)
       case None => None
       case Some(a) => Some(Negate(a)))
    case Bin(op, l, r) =>
      match Eval(l, nl, p)
      case None => None
      case Some(a) =>
        match Eval(r, nl, p)
        case None => None
        case Some(b) => Alu(op, a, b)
  }

  /** An expression with the scratch register chosen for each intermediate value. */
  datatype Placed =
    | PNum(k: Word, reg: Slot)
    | PLen(reg: Slot)
    | PLoad(base: Base, size: Size, index: Placed, reg: Slot)
    | PMinus(e: Placed)
    | PBin(op: AluOp, l: Placed, r: Placed, reg: Slot)

  function Reg(t: Placed): Slot {
    match t
    case PMinus(e) => Reg(e)
    case _ => t.reg
  }

  /** `t` is `e` with registers. */
  predicate Places(t: Placed, e: Arith) {
    match (t, e)
    case (PNum(k, _), Num(k')) => k == k'
    case (PLen(_), Len) => true
    case (PLoad(base, size, i, _), Load(base', bytes, i')) =>
      base == base' && SizeOf(bytes) == Some(size) && Places(i, i')
    case (PMinus(e1), Minus(e1')) => Places(e1, e1')
    case (PBin(op, l, r, _), Bin(op', l', r')) => op == op' && Places(l, l') && Places(r, r')
    case _ => false
  }

  /** The loads from a packet, relative to the value in register `r`. */
  function Fetch(base: Base, size: Size, r: Slot, nl: Word): seq<Stmt> {
    match base
    case Link => [LdxMem(r), LdInd(size, 0)]
    case Network => [LdxMem(r), LdInd(size, nl)]
    case Transport => [LdxMsh(nl), LdMem(r), AluX(Add), Tax, LdInd(size, nl)]
  }

  function Code(t: Placed, nl: Word): seq<Stmt> {
    match t
    case PNum(k, reg) => [LdImm(k), St(reg)]
    case PLen(reg) => [LdLen, St(reg)]
    case PLoad(base, size, i, reg) => Code(i, nl) + (Fetch(base, size, Reg(i), nl) + [St(reg)])
    case PMinus(e) => Code(e, nl) + [LdMem(Reg(e)), Neg, St(Reg(e))]
    case PBin(op, l, r, reg) => Code(l, nl) + (Code(r, nl) + [LdxMem(Reg(r)), LdMem(Reg(l)), AluX(op), St(reg)])
  }

  /** The registers were free when they were taken, `used` being taken already. */
  predicate Allocated(t: Placed, used: set<Slot>) {
    match t
    case PNum(_, reg) => reg !in used
    case PLen(reg) => reg !in used
    case PLoad(_, _, i, reg) => Allocated(i, used) && reg !in used
    case PMinus(e) => Allocated(e, used)
    case PBin(_, l, r, reg) => Allocated(l, used) && Allocated(r, used + {Reg(l)}) && reg !in used
  }

  lemma {:induction false} RegIsNew(t: Placed, used: set<Slot>)
    requires Allocated(t, used)
    ensures Reg(t) !in used
  {
    if t.PMinus? {
      RegIsNew(t.e, used);
    }
  }

  predicate KeepsSlots(st: State, st': State, used: set<Slot>) {
    forall m: Slot :: m in used ==> st'[m] == st[m]
  }

  /** What running the code for a value does: it is left in `reg`, and no register in use is written. */
  predicate Delivers(v: Option<Word>, r: Option<State>, reg: Slot, st: State, used: set<Slot>) {
    match v
    case None => r.None?
    case Some(w) => r.Some? && r.value[reg] == w && KeepsSlots(st, r.value, used)
  }

  lemma StoreDelivers(w: Word, reg: Slot, st: State, t: State, used: set<Slot>, p: Packet)
    requires t[A_ATOM] == w && KeepsSlots(st, t, used) && reg !in used
    ensures Delivers(Some(w), ExecAll([St(reg)], t, p), reg, st, used)
  {
    assert [St(reg)] == [St(reg)] + [];
    Exec1(St(reg), [], t, p);
  }

  lemma OffsetNothing(x: Word)
    ensures Offset(x, 0) == x
  {
  }

  /** Fetching: the item is left in A, and no slot is written. */
  lemma FetchRight(base: Base, size: Size, r: Slot, nl: Word, st: State, p: Packet)
    ensures match Item(base, size, st[r], nl, p)
            case None => ExecAll(Fetch(base, size, r, nl), st, p).None?
            case Some(w) =>
              var t := ExecAll(Fetch(base, size, r, nl), st, p);
              t.Some? && t.value[A_ATOM] == w && forall m: Slot :: t.value[m] == st[m]
  {
    if base.Transport? {
      TransportFetch(size, r, nl, st, p);
    } else {
      var k := if base.Link? then 0 else nl;
      OffsetNothing(st[r]);
      assert Fetch(base, size, r, nl) == [LdxMem(r)] + ([LdInd(size, k)] + []);
      Exec1(LdxMem(r), [LdInd(size, k)] + [], st, p);
      Exec1(LdInd(size, k), [], st[X_ATOM := st[r]], p);
    }
  }

  /** Adding X to an offset in A and loading from there. */
  lemma AddAndLoad(size: Size, nl: Word, st: State, p: Packet)
    ensures match p.load(size, Offset(Offset(st[A_ATOM], st[X_ATOM]), nl))
            case None => ExecAll([AluX(Add), Tax, LdInd(size, nl)], st, p).None?
            case Some(w) =>
              var t := ExecAll([AluX(Add), Tax, LdInd(size, nl)], st, p);
              t.Some? && t.value[A_ATOM] == w && forall m: Slot :: t.value[m] == st[m]
  {
    var x, s5 := Offset(st[A_ATOM], st[X_ATOM]), [LdInd(size, nl)] + [];
    var t := st[A_ATOM := x];
    assert [AluX(Add), Tax, LdInd(size, nl)] == [AluX(Add)] + ([Tax] + s5);
    Exec1(AluX(Add), [Tax] + s5, st, p);
    AddIsOffset(st, p);
    Exec1(Tax, s5, t, p);
    Exec1(LdInd(size, nl), [], t[X_ATOM := x], p);
  }

  lemma TransportFetch(size: Size, r: Slot, nl: Word, st: State, p: Packet)
    ensures match Item(Transport, size, st[r], nl, p)
            case None => ExecAll(Fetch(Transport, size, r, nl), st, p).None?
            case Some(w) =>
              var t := ExecAll(Fetch(Transport, size, r, nl), st, p);
              t.Some? && t.value[A_ATOM] == w && forall m: Slot :: t.value[m] == st[m]
  {
    var s3 := [AluX(Add), Tax, LdInd(size, nl)];
    assert Fetch(Transport, size, r, nl) == [LdxMsh(nl)] + ([LdMem(r)] + s3);
    Exec1(LdxMsh(nl), [LdMem(r)] + s3, st, p);
    match HeaderLength(p.load(B, nl))
    case None =>
    case Some(h) =>
      Exec1(LdMem(r), s3, st[X_ATOM := h], p);
      AddAndLoad(size, nl, st[X_ATOM := h][A_ATOM := st[r]], p);
  }

  lemma Then(s: seq<Stmt>, t: seq<Stmt>, v: Option<Word>, reg: Slot, st: State, used: set<Slot>, p: Packet)
    requires Delivers(v, ExecAll(s, st, p), reg, st, used)
    ensures v.None? ==> ExecAll(s + t, st, p).None?
    ensures v.Some? ==> ExecAll(s, st, p).Some? && ExecAll(s + t, st, p) == ExecAll(t, ExecAll(s, st, p).value, p)
  {
    ExecAllAppend(s, t, st, p);
  }

  /** The code for a placed expression computes its value in its register, and writes no register that
      was in use. */
  lemma {:induction false} CodeRight(t: Placed, e: Arith, nl: Word, used: set<Slot>, st: State, p: Packet)
    requires Places(t, e) && GoodSizes(e) && Allocated(t, used)
    ensures Delivers(Eval(e, nl, p), ExecAll(Code(t, nl), st, p), Reg(t), st, used)
    decreases t
  {
    match t
    case PNum(k, reg) =>
      assert Code(t, nl) == [LdImm(k)] + [St(reg)];
      Exec1(LdImm(k), [St(reg)], st, p);
      StoreDelivers(k, reg, st, st[A_ATOM := k], used, p);
    case PLen(reg) =>
      assert Code(t, nl) == [LdLen] + [St(reg)];
      Exec1(LdLen, [St(reg)], st, p);
      StoreDelivers(p.wirelen, reg, st, st[A_ATOM := p.wirelen], used, p);
    case PLoad(base, size, i, reg) => LoadRight(t, e, nl, used, st, p);
    case PMinus(_) => MinusRight(t, e, nl, used, st, p);
    case PBin(_, _, _, _) => BinRight(t, e, nl, used, st, p);
  }

  lemma {:induction false} LoadRight(t: Placed, e: Arith, nl: Word, used: set<Slot>, st: State, p: Packet)
    requires t.PLoad? && Places(t, e) && GoodSizes(e) && Allocated(t, used)
    ensures Delivers(Eval(e, nl, p), ExecAll(Code(t, nl), st, p), Reg(t), st, used)
    decreases t, 0
  {
    var fetch, i := Fetch(t.base, t.size, Reg(t.index), nl), Eval(e.index, nl, p);
    CodeRight(t.index, e.index, nl, used, st, p);
    Then(Code(t.index, nl), fetch + [St(t.reg)], i, Reg(t.index), st, used, p);
    if i.Some? {
      var t1 := ExecAll(Code(t.index, nl), st, p).value;
      FetchRight(t.base, t.size, Reg(t.index), nl, t1, p);
      ExecAllAppend(fetch, [St(t.reg)], t1, p);
      var w := Item(t.base, t.size, i.value, nl, p);
      if w.Some? {
        StoreDelivers(w.value, t.reg, st, ExecAll(fetch, t1, p).value, used, p);
      }
    }
  }

  lemma {:induction false} MinusRight(t: Placed, e: Arith, nl: Word, used: set<Slot>, st: State, p: Packet)
    requires t.PMinus? && Places(t, e) && GoodSizes(e) && Allocated(t, used)
    ensures Delivers(Eval(e, nl, p), ExecAll(Code(t, nl), st, p), Reg(t), st, used)
    decreases t, 0
  {
    var r := Reg(t.e);
    var tail := [LdMem(r)] + ([Neg] + [St(r)]);
    assert [LdMem(r), Neg, St(r)] == tail;
    CodeRight(t.e, e.e, nl, used, st, p);
    RegIsNew(t.e, used);
    Then(Code(t.e, nl), tail, Eval(e.e, nl, p), r, st, used, p);
    if Eval(e.e, nl, p).Some? {
      var a, t1 := Eval(e.e, nl, p).value, ExecAll(Code(t.e, nl), st, p).value;
      Exec1(LdMem(r), [Neg] + [St(r)], t1, p);
      Exec1(Neg, [St(r)], t1[A_ATOM := a], p);
      StoreDelivers(Negate(a), r, st, t1[A_ATOM := a][A_ATOM := Negate(a)], used, p);
    }
  }

  /** Loading both operands, right one into X. */
  lemma OperandsLoaded(rl: Slot, rr: Slot, rest: seq<Stmt>, st: State, p: Packet)
    ensures ExecAll([LdxMem(rr), LdMem(rl)] + rest, st, p) == ExecAll(rest, st[X_ATOM := st[rr]][A_ATOM := st[rl]], p)
  {
    assert [LdxMem(rr), LdMem(rl)] + rest == [LdxMem(rr)] + ([LdMem(rl)] + rest);
    Exec1(LdxMem(rr), [LdMem(rl)] + rest, st, p);
    Exec1(LdMem(rl), rest, st[X_ATOM := st[rr]], p);
  }

  /** Two operands computed one after the other are both still there. */
  lemma BothDelivered(sl: seq<Stmt>, sr: seq<Stmt>, rest: seq<Stmt>, vl: Option<Word>, vr: Option<Word>, rl: Slot,
                      rr: Slot, st: State, used: set<Slot>, p: Packet)
    requires Delivers(vl, ExecAll(sl, st, p), rl, st, used)
    requires vl.Some? ==>
               Delivers(vr, ExecAll(sr, ExecAll(sl, st, p).value, p), rr, ExecAll(sl, st, p).value, used + {rl})
    ensures vl.None? || vr.None? ==> ExecAll(sl + (sr + rest), st, p).None?
    ensures vl.Some? && vr.Some? ==>
              && ExecAll(sl, st, p).Some? && ExecAll(sr, ExecAll(sl, st, p).value, p).Some?
              && var t := ExecAll(sr, ExecAll(sl, st, p).value, p).value;
                 && ExecAll(sl + (sr + rest), st, p) == ExecAll(rest, t, p)
                 && t[rl] == vl.value && t[rr] == vr.value && KeepsSlots(st, t, used)
  {
    Then(sl, sr + rest, vl, rl, st, used, p);
    if vl.Some? {
      var t1 := ExecAll(sl, st, p).value;
      Then(sr, rest, vr, rr, t1, used + {rl}, p);
      if vr.Some? {
        var t := ExecAll(sr, t1, p).value;
        assert rl in used + {rl};
        forall m: Slot | m in used ensures t[m] == st[m] {
          assert m in used + {rl};
        }
      }
    }
  }

  lemma ComputeAndStore(op: AluOp, rl: Slot, rr: Slot, reg: Slot, st: State, t: State, used: set<Slot>, p: Packet)
    requires KeepsSlots(st, t, used) && reg !in used
    ensures Delivers(Alu(op, t[rl], t[rr]), ExecAll([LdxMem(rr), LdMem(rl), AluX(op), St(reg)], t, p), reg, st, used)
  {
    var tail := [AluX(op)] + [St(reg)];
    assert [LdxMem(rr), LdMem(rl), AluX(op), St(reg)] == [LdxMem(rr), LdMem(rl)] + tail;
    OperandsLoaded(rl, rr, tail, t, p);
    var t1 := t[X_ATOM := t[rr]][A_ATOM := t[rl]];
    Exec1(AluX(op), [St(reg)], t1, p);
    match Alu(op, t[rl], t[rr])
    case None =>
    case Some(w) => StoreDelivers(w, reg, st, t1[A_ATOM := w], used, p);
  }

  lemma {:induction false} BinRight(t: Placed, e: Arith, nl: Word, used: set<Slot>, st: State, p: Packet)
    requires t.PBin? && Places(t, e) && GoodSizes(e) && Allocated(t, used)
    ensures Delivers(Eval(e, nl, p), ExecAll(Code(t, nl), st, p), Reg(t), st, used)
    decreases t, 0
  {
    var rl, rr, vl, vr := Reg(t.l), Reg(t.r), Eval(e.l, nl, p), Eval(e.r, nl, p);
    var tail := [LdxMem(rr), LdMem(rl), AluX(t.op), St(t.reg)];
    CodeRight(t.l, e.l, nl, used, st, p);
    if vl.Some? {
      CodeRight(t.r, e.r, nl, used + {rl}, ExecAll(Code(t.l, nl), st, p).value, p);
    }
    BothDelivered(Code(t.l, nl), Code(t.r, nl), tail, vl, vr, rl, rr, st, used, p);
    if vl.Some? && vr.Some? {
      ComputeAndStore(t.op, rl, rr, t.reg, st, ExecAll(Code(t.r, nl), ExecAll(Code(t.l, nl), st, p).value, p).value,
                      used, p);
    }
  }
}
