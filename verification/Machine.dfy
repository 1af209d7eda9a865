/** The classic BPF machine: atoms, statements, branches and block graphs.

    A state is the sequence of the optimizer's eighteen atoms, so that "atom" means the same thing
    here and in the data-flow analyses: 0..15 are the scratch memory words, 16 is A and 17 is X. */
module Machine {
  import opened Collections
  import Words

  type Word = bv32

  const MEMWORDS: nat := 16
  const A_ATOM: nat := 16
  const X_ATOM: nat := 17
  const N_ATOMS: nat := 18

  type Slot = m: nat | m < 16
  type Atom = a: nat | a < 18
  type State = st: seq<Word> | |st| == 18 witness seq(18, _ => 0)

  datatype Size = W | H | B
  datatype AluOp = Add | Sub | Mul | Div | Or | And | Lsh | Rsh
  datatype JmpOp = Jeq | Jgt | Jge | Jset
  datatype Source = FromK | FromX

  /** Side-effect statements; `Nop` is the optimizer's deleted instruction. */
  datatype Stmt =
    | Nop
    | LdAbs(size: Size, k: Word)
    | LdInd(size: Size, k: Word)
    | LdLen
    | LdImm(k: Word)
    | LdMem(m: Slot)
    | LdxImm(k: Word)
    | LdxMem(m: Slot)
    | LdxMsh(k: Word)
    | St(m: Slot)
    | Stx(m: Slot)
    | AluK(op: AluOp, k: Word)
    | AluX(op: AluOp)
    | Neg
    | Tax
    | Txa

  /** The statement that ends a block. */
  datatype Branch =
    | Jmp(jop: JmpOp, src: Source, k: Word)
    | RetK(k: Word)
    | RetA

  /** What the machine can see of a packet: an out-of-range load is `None`. */
  datatype Packet = Packet(load: (Size, Word) -> Option<Word>, wirelen: Word)

  datatype Outcome = Return(k: Word) | Abort

  /** 32-bit arithmetic; shifts are total, and dividing by zero has no value. */
  function Alu(op: AluOp, a: Word, b: Word): Option<Word> {
    match op
    case Add => Some(a + b)
    case Sub => Some(a - b)
    case Mul => Some(a * b)
    case Div => if b == 0 then None else Some(Words.Quotient(a, b))
    case Or => Some(a | b)
    case And => Some(a & b)
    case Lsh => Some(if b < 32 then a << (b as bv6) else 0)
    case Rsh => Some(if b < 32 then a >> (b as bv6) else 0)
  }

  /** The address of an indexed load. */
  function Offset(x: Word, k: Word): Word { x + k }

  function Negate(a: Word): Word { 0 - a }

  function HeaderLength(b: Option<Word>): Option<Word> {
    match b
    case None => None
    case Some(w) => Some((w & 0xf) << 2)
  }

  /** The value a statement computes; `None` is an abort (load out of range, division by zero). */
  function Value(s: Stmt, st: State, p: Packet): Option<Word> {
    match s
    case Nop => None
    case LdAbs(size, k) => p.load(size, k)
    case LdInd(size, k) => p.load(size, Offset(st[X_ATOM], k))
    case LdLen => Some(p.wirelen)
    case LdImm(k) => Some(k)
    case LdMem(m) => Some(st[m])
    case LdxImm(k) => Some(k)
    case LdxMem(m) => Some(st[m])
    case LdxMsh(k) => HeaderLength(p.load(B, k))
    case St(_) => Some(st[A_ATOM])
    case Stx(_) => Some(st[X_ATOM])
    case AluK(op, k) => Alu(op, st[A_ATOM], k)
    case AluX(op) => Alu(op, st[A_ATOM], st[X_ATOM])
    case Neg => Some(Negate(st[A_ATOM]))
    case Tax => Some(st[A_ATOM])
    case Txa => Some(st[X_ATOM])
  }

  /** Where that value goes. */
  function Dest(s: Stmt): Atom {
    match s
    case LdxImm(_) => X_ATOM
    case LdxMem(_) => X_ATOM
    case LdxMsh(_) => X_ATOM
    case Tax => X_ATOM
    case St(m) => m
    case Stx(m) => m
    case _ => A_ATOM
  }

  /** One statement; `None` is an abort. */
  function Exec(s: Stmt, st: State, p: Packet): Option<State> {
    if s == Nop then Some(st)
    else match Value(s, st, p)
      case None => None
      case Some(w) => Some(st[Dest(s) := w])
  }

  lemma AddIsOffset(st: State, p: Packet)
    ensures Exec(AluX(Add), st, p) == Some(st[A_ATOM := Offset(st[A_ATOM], st[X_ATOM])])
  {
  }

  function ExecAll(ss: seq<Stmt>, st: State, p: Packet): Option<State> {
    if ss == [] then Some(st)
    else
      match Exec(ss[0], st, p)
      case None => None
      case Some(st') => ExecAll(ss[1..], st', p)
  }

  lemma Exec1(s: Stmt, rest: seq<Stmt>, st: State, p: Packet)
    ensures ExecAll([s] + rest, st, p) == match Exec(s, st, p) { case None => None case Some(t) => ExecAll(rest, t, p) }
  {
    assert ([s] + rest)[1..] == rest;
  }

  function Compare(op: JmpOp, a: Word, b: Word): bool {
    match op
    case Jeq => a == b
    case Jgt => a > b
    case Jge => a >= b
    case Jset => a & b != 0
  }

  /** Which way a conditional branch goes. */
  predicate Taken(s: Branch, st: State)
    requires s.Jmp?
  {
    Compare(s.jop, st[A_ATOM], if s.src.FromK? then s.k else st[X_ATOM])
  }

  lemma {:induction false} ExecAllAppend(s: seq<Stmt>, t: seq<Stmt>, st: State, p: Packet)
    ensures ExecAll(s + t, st, p) ==
            match ExecAll(s, st, p) { case None => None case Some(st') => ExecAll(t, st', p) }
  {
    if s == [] {
      assert s + t == t;
    } else {
      assert (s + t)[1..] == s[1..] + t;
      match Exec(s[0], st, p)
      case None =>
      case Some(st') => ExecAllAppend(s[1..], t, st', p);
    }
  }

  /** A basic block; `jt` and `jf` are indices into the graph and mean nothing for a return. */
  datatype Block = Block(stmts: seq<Stmt>, s: Branch, jt: nat, jf: nat)

  type Graph = seq<Block>

  /** Every branch leads to a block. */
  predicate WellFormed(g: Graph) {
    forall b {:trigger g[b]} :: 0 <= b < |g| && g[b].s.Jmp? ==> g[b].jt < |g| && g[b].jf < |g|
  }

  /** A set of blocks containing all successors of its members. */
  predicate SuccClosed(g: Graph, s: set<nat>) {
    && (forall b :: b in s ==> b < |g|)
    && forall b {:trigger g[b]} :: b in s && g[b].s.Jmp? ==> g[b].jt in s && g[b].jf in s
  }

  /** `lv` levels the blocks it gives a non-negative number to: levels fall along every edge. */
  predicate Leveled(g: Graph, lv: seq<int>) {
    && |lv| == |g|
    && forall b {:trigger g[b]} :: 0 <= b < |g| && lv[b] >= 0 && g[b].s.Jmp? ==>
         && g[b].jt < |g| && g[b].jf < |g|
         && 0 <= lv[g[b].jt] < lv[b] && 0 <= lv[g[b].jf] < lv[b]
  }

  function Finish(s: Branch, st: State): Outcome
    requires !s.Jmp?
  {
    if s.RetK? then Return(s.k) else Return(st[A_ATOM])
  }

  /** Running a levelled graph from block `b`. */
  function Run(g: Graph, lv: seq<int>, b: nat, st: State, p: Packet): Outcome
    requires Leveled(g, lv) && b < |g| && lv[b] >= 0
    decreases lv[b]
  {
    match ExecAll(g[b].stmts, st, p)
    case None => Abort
    case Some(st') =>
      if !g[b].s.Jmp? then Finish(g[b].s, st')
      else Run(g, lv, if Taken(g[b].s, st') then g[b].jt else g[b].jf, st', p)
  }

  lemma {:induction false} RunIgnoresLevels(g: Graph, lv: seq<int>, lv': seq<int>, b: nat, st: State, p: Packet)
    requires Leveled(g, lv) && Leveled(g, lv') && b < |g| && lv[b] >= 0 && lv'[b] >= 0
    ensures Run(g, lv, b, st, p) == Run(g, lv', b, st, p)
    decreases lv[b]
  {
    match ExecAll(g[b].stmts, st, p)
    case None =>
    case Some(st') =>
      if g[b].s.Jmp? {
        RunIgnoresLevels(g, lv, lv', if Taken(g[b].s, st') then g[b].jt else g[b].jf, st', p);
      }
  }
}
