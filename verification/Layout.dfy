/** Laying a block graph out as a BPF instruction array, with long jumps where a branch offset does
    not fit in a byte (`icode_to_fcode`). */
module Layout {
  import opened Machine

  newtype Byte = x: int | 0 <= x < 256

  datatype Insn =
    | Plain(s: Stmt)
    | Cond(jop: JmpOp, src: Source, k: Word, jt: Byte, jf: Byte)
    | Ja(off: nat)
    | Ret(b: Branch)

  /** Running an instruction array; all jumps are relative and forward. */
  function RunArray(code: seq<Insn>, pc: nat, st: State, p: Packet): Outcome
    decreases |code| - pc
  {
    if pc >= |code| then Abort
    else
      match code[pc]
      case Plain(s) =>
        (match Exec(s, st, p)
         case None => Abort
         case Some(st') => RunArray(code, pc + 1, st', p))
      case Cond(jop, src, k, jt, jf) =>
        RunArray(code, pc + 1 + (if Taken(Jmp(jop, src, k), st) then jt as int else jf as int), st, p)
      case Ja(off) => RunArray(code, pc + 1 + off, st, p)
      case Ret(b) => if b.Jmp? then Abort else Finish(b, st)
  }

  /** The statements that are not deleted. */
  function Compact(ss: seq<Stmt>): (r: seq<Stmt>)
    ensures |r| <= |ss|
  {
    if ss == [] then []
    else if ss[0] == Nop then Compact(ss[1..])
    else [ss[0]] + Compact(ss[1..])
  }

  lemma {:induction false} CompactExec(ss: seq<Stmt>, st: State, p: Packet)
    ensures ExecAll(Compact(ss), st, p) == ExecAll(ss, st, p)
  {
    if ss != [] {
      if ss[0] == Nop {
        CompactExec(ss[1..], st, p);
      } else {
        assert Compact(ss)[1..] == Compact(ss[1..]);
        if Exec(ss[0], st, p).Some? {
          CompactExec(ss[1..], Exec(ss[0], st, p).value, p);
        }
      }
    }
  }

  /** Statements deleted stay deleted. */
  predicate NopsStay(ss: seq<Stmt>, ss': seq<Stmt>) {
    |ss'| == |ss| && forall k {:trigger ss'[k]} :: 0 <= k < |ss| && ss[k] == Nop ==> ss'[k] == Nop
  }

  lemma {:induction false} DeletingShortens(ss: seq<Stmt>, ss': seq<Stmt>)
    requires NopsStay(ss, ss')
    ensures |Compact(ss')| <= |Compact(ss)|
  {
    if ss != [] {
      forall k | 0 <= k < |ss[1..]| && ss[1..][k] == Nop ensures ss'[1..][k] == Nop {
        assert ss[k + 1] == Nop && ss'[k + 1] == Nop;
      }
      DeletingShortens(ss[1..], ss'[1..]);
      assert ss[0] == Nop ==> ss'[0] == Nop;
    }
  }

  lemma {:induction false} CompactAppend(s: seq<Stmt>, x: Stmt)
    ensures Compact(s + [x]) == if x == Nop then Compact(s) else Compact(s) + [x]
  {
    if s == [] {
      assert s + [x] == [x];
    } else {
      assert (s + [x])[1..] == s[1..] + [x];
      CompactAppend(s[1..], x);
    }
  }

  /** Which branches have been given a long jump. */
  datatype Flags = Flags(jt: seq<bool>, jf: seq<bool>)

  predicate Fits(g: Graph, f: Flags) {
    |f.jt| == |g| && |f.jf| == |g|
  }

  /** The long jumps of a block. */
  function Extra(g: Graph, f: Flags, i: nat): (n: nat)
    requires Fits(g, f) && i < |g|
  {
    (if f.jt[i] then 1 else 0) + (if f.jf[i] then 1 else 0)
  }

  function Extent(g: Graph, f: Flags, i: nat): (n: nat)
    requires Fits(g, f) && i < |g|
  {
    |Compact(g[i].stmts)| + 1 + Extra(g, f, i)
  }

  /** A branch whose offsets count from `lo` and that arrives at `at` continues at `target`: directly if that is less
      than 256 away, else by a long jump kept in the block's own extent, which ends at `hi`. */
  predicate Lands(code: seq<Insn>, at: nat, target: nat, lo: nat, hi: nat)
    requires hi <= |code|
  {
    if target < lo + 256 then at == target else lo <= at < hi && code[at].Ja? && at + 1 + code[at].off == target
  }

  /** Block `b` occupies `o..hi` of the array; its successors start at `ot` and `of`. */
  predicate Emitted(code: seq<Insn>, b: Block, o: nat, hi: nat, ot: nat, of: nat) {
    var br := o + |Compact(b.stmts)|;
    && br < hi <= |code|
    && (forall j :: o <= j < br ==> code[j] == Plain(Compact(b.stmts)[j - o]))
    && if !b.s.Jmp? then code[br] == Ret(b.s)
       else
         && code[br].Cond? && b.s == Jmp(code[br].jop, code[br].src, code[br].k)
         && Lands(code, br + 1 + code[br].jt as int, ot, br + 1, hi)
         && Lands(code, br + 1 + code[br].jf as int, of, br + 1, hi)
  }

  lemma {:induction false} RunPlain(code: seq<Insn>, ss: seq<Stmt>, pc: nat, st: State, p: Packet)
    requires pc + |ss| <= |code|
    requires forall j :: pc <= j < pc + |ss| ==> code[j] == Plain(ss[j - pc])
    ensures RunArray(code, pc, st, p) ==
            match ExecAll(ss, st, p) { case None => Abort case Some(st') => RunArray(code, pc + |ss|, st', p) }
  {
    if ss != [] {
      assert code[pc] == Plain(ss[0]);
      if Exec(ss[0], st, p).Some? {
        forall j | pc + 1 <= j < pc + 1 + |ss[1..]| ensures code[j] == Plain(ss[1..][j - (pc + 1)]) {
          assert code[j] == Plain(ss[j - pc]);
        }
        RunPlain(code, ss[1..], pc + 1, Exec(ss[0], st, p).value, p);
      }
    }
  }

  /** An emitted block does what the block does. */
  lemma EmittedRun(code: seq<Insn>, b: Block, o: nat, hi: nat, ot: nat, of: nat, st: State, p: Packet)
    requires Emitted(code, b, o, hi, ot, of)
    ensures RunArray(code, o, st, p) ==
            match ExecAll(b.stmts, st, p) {
              case None => Abort
              case Some(st') =>
                if !b.s.Jmp? then Finish(b.s, st')
                else RunArray(code, if Taken(b.s, st') then ot else of, st', p)
            }
  {
    RunPlain(code, Compact(b.stmts), o, st, p);
    CompactExec(b.stmts, st, p);
  }

  /** A branch that goes 256 instructions or more has a long jump of its own. */
  predicate FarHaveJumps(g: Graph, f: Flags, off: seq<nat>, i: nat)
    requires Fits(g, f) && |off| == |g| && i < |g|
  {
    var next := off[i] + |Compact(g[i].stmts)| + 1;
    g[i].s.Jmp? && g[i].jt < |g| && g[i].jf < |g| ==>
      (off[g[i].jt] >= next + 256 ==> f.jt[i]) && (off[g[i].jf] >= next + 256 ==> f.jf[i])
  }

  predicate Placed(code: seq<Insn>, g: Graph, f: Flags, off: seq<nat>, i: nat)
    requires Fits(g, f) && |off| == |g| && i < |g|
  {
    && FarHaveJumps(g, f, off, i)
    && off[i] + Extent(g, f, i) <= |code|
    && (g[i].s.Jmp? ==> g[i].jt < |g| && g[i].jf < |g|)
    && Emitted(code, g[i], off[i], off[i] + Extent(g, f, i), if g[i].s.Jmp? then off[g[i].jt] else 0,
               if g[i].s.Jmp? then off[g[i].jf] else 0)
  }

  /** The array runs like the graph, from any block of a placed set closed under successors. */
  lemma {:induction false} ArrayRunsLikeGraph(code: seq<Insn>, g: Graph, lv: seq<int>, f: Flags, off: seq<nat>,
                                              s: set<nat>, i: nat, st: State, p: Packet)
    requires Leveled(g, lv) && Fits(g, f) && |off| == |g| && SuccClosed(g, s) && i in s
    requires forall j :: j in s ==> lv[j] >= 0 && Placed(code, g, f, off, j)
    ensures RunArray(code, off[i], st, p) == Run(g, lv, i, st, p)
    decreases lv[i]
  {
    var b := g[i];
    EmittedRun(code, b, off[i], off[i] + Extent(g, f, i), if b.s.Jmp? then off[b.jt] else 0,
               if b.s.Jmp? then off[b.jf] else 0, st, p);
    match ExecAll(b.stmts, st, p)
    case None =>
    case Some(st') =>
      if b.s.Jmp? {
        ArrayRunsLikeGraph(code, g, lv, f, off, s, if Taken(b.s, st') then b.jt else b.jf, st', p);
      }
  }
}
