/** Rewriting a compiled filter for the Linux kernel (`fix_program`, `fix_offset`): in cooked mode the
    kernel filters the payload, without the 16-byte header the compiler saw. */
module KernelFilter {
  import opened Collections
  import opened Machine
  import opened Layout

  const SLL_HDR_LEN: Word := 16
  /** SKF_AD_OFF + SKF_AD_PROTOCOL of the kernel's <linux/filter.h>: -0x1000. */
  const PROTOCOL_OFFSET: Word := 0xfffff000

  /** The offset, a signed number, is in the payload. */
  predicate InPayload(k: Word) { SLL_HDR_LEN <= k < 0x8000_0000 }

  function WithoutHeader(k: Word): Word { k - SLL_HDR_LEN }

  /** `fix_offset` on the number alone; `None` is "punt to userland". */
  function FixedOffset(k: Word): Option<Word> {
    if InPayload(k) then Some(WithoutHeader(k)) else if k == 14 then Some(PROTOCOL_OFFSET) else None
  }

  function WithOffset(i: Insn, k: Word): Insn
    requires i.Plain? && (i.s.LdAbs? || i.s.LdInd? || i.s.LdxMsh?)
  {
    Plain(match i.s
          case LdAbs(size, _) => LdAbs(size, k)
          case LdInd(size, _) => LdInd(size, k)
          case LdxMsh(_) => LdxMsh(k))
  }

  predicate LoadsPacket(i: Insn) {
    i.Plain? && (i.s.LdAbs? || i.s.LdInd? || i.s.LdxMsh?)
  }

  /** What becomes of one instruction. */
  function FixInsn(i: Insn, cooked: bool): Option<Insn> {
    if i.Ret? && i.b.RetK? then Some(Ret(RetK(if i.b.k != 0 then 65535 else 0)))
    else if LoadsPacket(i) && cooked then
      match FixedOffset(i.s.k)
      case None => None
      case Some(k) => Some(WithOffset(i, k))
    else Some(i)
  }

  /** What becomes of a load in cooked mode: the payload, from byte 16 on, is numbered from 0, the protocol field has
      its magic offset, and any other offset, a negative one included, is refused. */
  lemma CookedLoad(size: Size, k: Word)
    ensures var fixed := if 16 <= k < 0x8000_0000 then Some(k - 16) else if k == 14 then Some(0xffff_f000) else None;
            match fixed
            case None =>
              && FixInsn(Plain(LdAbs(size, k)), true) == None && FixInsn(Plain(LdInd(size, k)), true) == None
              && FixInsn(Plain(LdxMsh(k)), true) == None
            case Some(k') =>
              && FixInsn(Plain(LdAbs(size, k)), true) == Some(Plain(LdAbs(size, k')))
              && FixInsn(Plain(LdInd(size, k)), true) == Some(Plain(LdInd(size, k')))
              && FixInsn(Plain(LdxMsh(k)), true) == Some(Plain(LdxMsh(k')))
  {
  }

  /** Everything else stays, but a constant return other than 0 becomes 65535. */
  lemma OtherInsn(i: Insn, cooked: bool)
    requires cooked ==> i.Plain? ==> !i.s.LdAbs? && !i.s.LdInd? && !i.s.LdxMsh?
    ensures FixInsn(i, cooked) == Some(if i.Ret? && i.b.RetK? && i.b.k != 0 then Ret(RetK(65535)) else i)
  {
  }

  /** The kernel can make this load from the payload. */
  predicate KernelLoad(s: Stmt) {
    match s
    case LdAbs(_, k) => k == 14 || 16 <= k < 0x8000_0000
    case LdInd(_, k) => k == 14 || 16 <= k < 0x8000_0000
    case LdxMsh(k) => k == 14 || 16 <= k < 0x8000_0000
    case _ => true
  }

  /** `fix_offset` */
  method FixOffset(f: array<Insn>, i: nat) returns (ok: bool)
    requires i < f.Length && LoadsPacket(f[i])
    modifies f
    ensures ok == KernelLoad(old(f[i]).s)
    ensures f[..] == if ok then old(f[..])[i := WithOffset(old(f[i]), FixedOffset(old(f[i]).s.k).value)] else old(f[..])
  {
    var k := f[i].s.k;
    if InPayload(k) {
      f[i] := WithOffset(f[i], WithoutHeader(k));
    } else if k == 14 {
      f[i] := WithOffset(f[i], PROTOCOL_OFFSET);
    } else {
      return false;
    }
    return true;
  }

  /** `fix_program`: a fixed copy of the filter, or failure if some load cannot be made in the kernel. */
  method FixProgram(insns: array<Insn>, cooked: bool) returns (ok: bool, f: array<Insn>)
    ensures fresh(f) && f.Length == insns.Length && insns[..] == old(insns[..])
    ensures ok <==> forall i :: 0 <= i < insns.Length && cooked && insns[i].Plain? ==> KernelLoad(insns[i].s)
    ensures ok ==> Fixed(insns[..], f[..], cooked)
  {
    f := new Insn[insns.Length](i requires 0 <= i < insns.Length reads insns => insns[i]);
    for i := 0 to f.Length
      invariant forall j :: i <= j < f.Length ==> f[j] == insns[j]
      invariant forall j :: 0 <= j < i ==> FixInsn(insns[j], cooked) == Some(f[j])
    {
      if f[i].Ret? {
        if f[i].b.RetK? && f[i].b.k != 0 {
          f[i] := Ret(RetK(65535));
        }
      } else if LoadsPacket(f[i]) && cooked {
        var fixed := FixOffset(f, i);
        if !fixed {
          return false, f;
        }
      }
    }
    ok := true;
  }

  predicate Fixed(code: seq<Insn>, code': seq<Insn>, cooked: bool) {
    |code'| == |code| && forall i {:trigger code'[i]} :: 0 <= i < |code| ==> FixInsn(code[i], cooked) == Some(code'[i])
  }

  /** What the kernel sees (`q`) of a cooked packet (`p`): the payload from 0 on, and the protocol field
      as a half word at the magic offset. */
  ghost predicate CookedView(p: Packet, q: Packet) {
    && (forall size: Size, a: Word {:trigger p.load(size, a)} :: InPayload(a) ==>
          q.load(size, WithoutHeader(a)) == p.load(size, a))
    && q.load(H, PROTOCOL_OFFSET) == p.load(H, 14)
  }

  /** No packet length, and offset 14 only as an absolute half word. */
  predicate Suitable(i: Insn) {
    i != Plain(LdLen) && (LoadsPacket(i) && i.s.k == 14 ==> i.s == LdAbs(H, 14))
  }

  /** Every indexed load the run makes is from the payload. */
  predicate StaysInPayload(code: seq<Insn>, pc: nat, st: State, p: Packet)
    decreases |code| - pc
  {
    if pc >= |code| then true
    else
      match code[pc]
      case Plain(s) =>
        && (s.LdInd? ==> InPayload(Offset(st[X_ATOM], s.k)))
        && (match Exec(s, st, p)
            case None => true
            case Some(st') => StaysInPayload(code, pc + 1, st', p))
      case Cond(jop, src, k, jt, jf) =>
        StaysInPayload(code, pc + 1 + (if Taken(Jmp(jop, src, k), st) then jt as int else jf as int), st, p)
      case Ja(off) => StaysInPayload(code, pc + 1 + off, st, p)
      case Ret(_) => true
  }

  /** The verdicts agree: the same abort, both reject, or both accept; a constant accept is 65535. */
  predicate KernelVerdict(o: Outcome, o': Outcome, constant: bool) {
    match o
    case Abort => o' == Abort
    case Return(k) => if k == 0 then o' == Return(0) else o' == Return(65535) || (!constant && o' == o)
  }

  predicate ReturnsConstants(code: seq<Insn>) {
    forall i :: 0 <= i < |code| && code[i].Ret? ==> !code[i].b.RetA?
  }

  lemma OffsetMinus(x: Word, k: Word)
    ensures Offset(x, k - SLL_HDR_LEN) == WithoutHeader(x + k)
  {
  }

  lemma OffsetMinusIs(x: Word, k: Word, k': Word, a: Word)
    requires k' == k - SLL_HDR_LEN && a == x + k
    ensures Offset(x, k') == WithoutHeader(a)
  {
    OffsetMinus(x, k);
  }

  lemma AbsoluteLoads(size: Size, k: Word, k': Word, p: Packet, q: Packet)
    requires FixedOffset(k) == Some(k') && CookedView(p, q) && (k == 14 ==> size == H)
    ensures q.load(size, k') == p.load(size, k)
  {
    if InPayload(k) {
      assert q.load(size, WithoutHeader(k)) == p.load(size, k);
    }
  }

  lemma IndexedLoads(size: Size, k: Word, k': Word, x: Word, p: Packet, q: Packet)
    requires FixedOffset(k) == Some(k') && k != 14 && CookedView(p, q) && InPayload(Offset(x, k))
    ensures q.load(size, Offset(x, k')) == p.load(size, Offset(x, k))
  {
    OffsetMinusIs(x, k, k', Offset(x, k));
  }

  /** A fixed load finds in the kernel's view what the original found in the packet. */
  lemma FixedLoads(i: Insn, i': Insn, st: State, p: Packet, q: Packet)
    requires LoadsPacket(i) && Suitable(i) && FixInsn(i, true) == Some(i') && CookedView(p, q)
    requires i.s.LdInd? ==> InPayload(Offset(st[X_ATOM], i.s.k))
    ensures i'.Plain? && Exec(i'.s, st, q) == Exec(i.s, st, p)
  {
    var k' := FixedOffset(i.s.k).value;
    match i.s
    case LdAbs(size, k) => AbsoluteLoads(size, k, k', p, q);
    case LdInd(size, k) => IndexedLoads(size, k, k', st[X_ATOM], p, q);
    case LdxMsh(k) => AbsoluteLoads(B, k, k', p, q);
  }

  lemma OtherStatements(s: Stmt, st: State, p: Packet, q: Packet)
    requires !LoadsPacket(Plain(s)) && s != LdLen
    ensures Exec(s, st, q) == Exec(s, st, p)
  {
  }

  /** The rewritten filter decides on the kernel's view as the original does on the cooked packet. */
  lemma {:induction false} FixedRun(code: seq<Insn>, code': seq<Insn>, pc: nat, st: State, p: Packet, q: Packet)
    requires Fixed(code, code', true) && (forall i :: 0 <= i < |code| ==> Suitable(code[i]))
    requires CookedView(p, q) && StaysInPayload(code, pc, st, p)
    ensures KernelVerdict(RunArray(code, pc, st, p), RunArray(code', pc, st, q), ReturnsConstants(code))
    decreases |code| - pc
  {
    if pc < |code| {
      assert FixInsn(code[pc], true) == Some(code'[pc]) && Suitable(code[pc]);
      match code[pc]
      case Plain(s) =>
        if LoadsPacket(code[pc]) {
          FixedLoads(code[pc], code'[pc], st, p, q);
        } else {
          OtherStatements(s, st, p, q);
        }
        if Exec(s, st, p).Some? {
          FixedRun(code, code', pc + 1, Exec(s, st, p).value, p, q);
        }
      case Cond(jop, src, k, jt, jf) =>
        FixedRun(code, code', pc + 1 + (if Taken(Jmp(jop, src, k), st) then jt as int else jf as int), st, p, q);
      case Ja(off) => FixedRun(code, code', pc + 1 + off, st, p, q);
      case Ret(_) =>
    }
  }

  /** Outside cooked mode only constant returns change. */
  lemma {:induction false} UncookedRun(code: seq<Insn>, code': seq<Insn>, pc: nat, st: State, p: Packet)
    requires Fixed(code, code', false)
    ensures KernelVerdict(RunArray(code, pc, st, p), RunArray(code', pc, st, p), ReturnsConstants(code))
    decreases |code| - pc
  {
    if pc < |code| {
      assert FixInsn(code[pc], false) == Some(code'[pc]);
      match code[pc]
      case Plain(s) =>
        if Exec(s, st, p).Some? {
          UncookedRun(code, code', pc + 1, Exec(s, st, p).value, p);
        }
      case Cond(jop, src, k, jt, jf) =>
        UncookedRun(code, code', pc + 1 + (if Taken(Jmp(jop, src, k), st) then jt as int else jf as int), st, p);
      case Ja(off) => UncookedRun(code, code', pc + 1 + off, st, p);
      case Ret(_) =>
    }
  }

  /** A packet in which only one field can be loaded. */
  function OneField(size: Size, a: Word): Packet {
    Packet((s, b) => if s == size && b == a then Some(1) else None, 0)
  }

  /** The kernel's view of it, when that field is in the header. */
  function ViewOfHeaderField(size: Size, a: Word): Packet {
    Packet((s, b) => if a == 14 && size == H && s == H && b == PROTOCOL_OFFSET then Some(1) else None, 0)
  }

  lemma PayloadApart(a: Word)
    requires InPayload(a)
    ensures WithoutHeader(a) != PROTOCOL_OFFSET
  {
  }

  lemma HeaderFieldLost(size: Size, a: Word)
    requires !InPayload(a)
    ensures CookedView(OneField(size, a), ViewOfHeaderField(size, a))
    ensures ViewOfHeaderField(size, a).load(size, WithoutHeader(a)) != OneField(size, a).load(size, a)
  {
    var p, q := OneField(size, a), ViewOfHeaderField(size, a);
    forall s: Size, b: Word | InPayload(b) ensures q.load(s, WithoutHeader(b)) == p.load(s, b) {
      PayloadApart(b);
    }
  }

  /** An indexed load survives the rewrite for every packet exactly when its address is in the payload:
      an index that wraps around into the header is read from elsewhere by the kernel. */
  lemma IndexedExact(size: Size, k: Word, x: Word)
    requires InPayload(k)
    ensures (forall p: Packet, q: Packet :: CookedView(p, q) ==>
               q.load(size, Offset(x, WithoutHeader(k))) == p.load(size, Offset(x, k))) <==> InPayload(Offset(x, k))
  {
    var a := Offset(x, k);
    if InPayload(a) {
      forall p: Packet, q: Packet | CookedView(p, q)
        ensures q.load(size, Offset(x, WithoutHeader(k))) == p.load(size, a)
      {
        IndexedLoads(size, k, WithoutHeader(k), x, p, q);
      }
    } else {
      OffsetMinusIs(x, k, WithoutHeader(k), a);
      HeaderFieldLost(size, a);
      assert CookedView(OneField(size, a), ViewOfHeaderField(size, a));
    }
  }

  lemma WrappedIndex()
    ensures InPayload(16) && Offset(0xfffffffe, 16) == 14 && WithoutHeader(16) == 0
    ensures Offset(0xfffffffe, 0) == 0xfffffffe
  {
  }

  /** A filter that is fixed without complaint and yet decides differently: its index, -2, leads from the
      start of the payload back to the protocol field. */
  lemma WrappedProgram(st: State)
    ensures var code := [Plain(LdxImm(0xfffffffe)), Plain(LdInd(H, 16)), Ret(RetA)];
            var code' := [Plain(LdxImm(0xfffffffe)), Plain(LdInd(H, 0)), Ret(RetA)];
            && Fixed(code, code', true) && (forall i :: 0 <= i < |code| ==> Suitable(code[i]))
            && CookedView(OneField(H, 14), ViewOfHeaderField(H, 14))
            && RunArray(code, 0, st, OneField(H, 14)) == Return(1)
            && RunArray(code', 0, st, ViewOfHeaderField(H, 14)) == Abort
  {
    var code := [Plain(LdxImm(0xfffffffe)), Plain(LdInd(H, 16)), Ret(RetA)];
    var code' := [Plain(LdxImm(0xfffffffe)), Plain(LdInd(H, 0)), Ret(RetA)];
    var p, q := OneField(H, 14), ViewOfHeaderField(H, 14);
    WrappedIndex();
    HeaderFieldLost(H, 14);
    var st1 := st[X_ATOM := 0xfffffffe];
    assert Exec(LdInd(H, 16), st1, p) == Some(st1[A_ATOM := 1]);
    assert RunArray(code, 2, st1[A_ATOM := 1], p) == Return(1);
    assert RunArray(code, 1, st1, p) == Return(1);
    assert Exec(LdInd(H, 0), st1, q) == None;
    assert RunArray(code', 1, st1, q) == Abort;
  }
}
