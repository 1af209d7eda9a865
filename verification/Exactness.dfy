/** What the analyses answer, said in other words: which atoms are read, which stores are dead, which chains are
    pulled up, which blocks a sweep empties. */
module Exactness {
  import opened Collections
  import opened Machine
  import opened Words
  import opened Atoms
  import opened Liveness
  import opened DeadStores
  import opened TestChains
  import opened Pullup
  import opened Numbering
  import opened Sweep
  import opened Allocation
  import opened Layout
  import opened Convert

  /** Changing atom `a` to `w` makes a difference to what the statement computes. */
  predicate Differs(s: Stmt, a: Atom, st: State, w: Word, p: Packet) {
    Value(s, st, p) != Value(s, st[a := w], p)
  }

  const Somewhere: Packet := Packet((size, at) => Some(at), 0)

  lemma Threes()
    ensures Words.Quotient(3, 1) != Words.Quotient(0, 1)
  {
    assert OfNum(1) == 1 && OfNum(3) == 3;
    NumOfNum(1);
    NumOfNum(3);
    QuotientRight(3, 1);
    QuotientRight(0, 1);
    assert Num(0) == 0;
  }

  lemma AluReads(op: AluOp)
    ensures Alu(op, 3, 1) != Alu(op, if op.Or? then 4 else 0, 1) && Alu(op, 3, 1) != Alu(op, 3, if op.Or? then 4 else 0)
  {
    match op
    case Div => Threes();
    case _ =>
  }

  /** `atomuse` names no atom in vain. */
  lemma UseExact(s: Stmt, a: Atom)
    requires a in AtomUse(s) && !s.AluK?
    ensures exists st: State, w: Word, p: Packet :: Differs(s, a, st, w, p)
  {
    var st: State := seq(18, _ => 1)[A_ATOM := 3];
    if s.AluX? {
      AluReads(s.op);
      assert Differs(s, a, st, if s.op.Or? then 4 else 0, Somewhere);
    } else {
      assert Differs(s, a, st, 0, Somewhere);
    }
  }

  lemma UseExactK(op: AluOp, a: Atom)
    requires forall k: Word :: a in AtomUse(AluK(op, k))
    ensures exists k: Word, st: State, w: Word, p: Packet :: Differs(AluK(op, k), a, st, w, p)
  {
    var st: State := seq(18, _ => 1)[A_ATOM := 3];
    AluReads(op);
    assert a in AtomUse(AluK(op, 1));
    assert Differs(AluK(op, 1), a, st, if op.Or? then 4 else 0, Somewhere);
  }

  predicate TurnsOn(s: Branch, a: Atom, st: State, w: Word)
    requires s.Jmp?
  {
    Taken(s, st) != Taken(s, st[a := w])
  }

  /** Nor does a branch. */
  lemma BranchUseExact(op: JmpOp, src: Source, a: Atom)
    requires forall k: Word :: a in BranchUse(Jmp(op, src, k))
    ensures exists k: Word, st: State, w: Word :: TurnsOn(Jmp(op, src, k), a, st, w)
  {
    assert a in BranchUse(Jmp(op, src, 1));
    var x := if op.Jgt? then 0 else 1;
    var st: State := seq(18, _ => 1)[X_ATOM := x];
    assert TurnsOn(Jmp(op, src, x), a, st, if a == A_ATOM then 0 else if op.Jgt? then 1 else if op.Jge? then 2 else 0);
  }

  /** Statement `i` is a dead store exactly if it defines an atom that is not live behind it. */
  lemma {:induction false} DeadIsNotLive(ss: seq<Stmt>, on: set<Atom>, i: nat)
    requires i < |ss|
    ensures DeadAt(ss, on, i) <==>
              AtomDef(ss[i]).Some? && AtomDef(ss[i]).value !in LiveIn(ss[i + 1..], RetK(0), on)
  {
    if AtomDef(ss[i]).Some? {
      DeadFrom(ss, on, i, i + 1, AtomDef(ss[i]).value);
    }
  }

  /** From `k` on, with nothing of `a` seen between. */
  lemma {:induction false} DeadFrom(ss: seq<Stmt>, on: set<Atom>, i: nat, k: nat, a: Atom)
    requires OpenAt(ss, i, k, a)
    ensures DeadAt(ss, on, i) <==> a !in LiveIn(ss[k..], RetK(0), on)
    decreases |ss| - k
  {
    if k == |ss| {
      assert ss[k..] == [];
    } else {
      assert ss[k..][1..] == ss[k + 1..];
      if Ignores(ss[k], a) {
        assert OpenAt(ss, i, k + 1, a);
        DeadFrom(ss, on, i, k + 1, a);
      } else {
        Closing(ss, i, k, a);
      }
    }
  }

  /** What becomes of a definition is settled at the first statement that reads or writes the atom. */
  lemma Closing(ss: seq<Stmt>, i: nat, k: nat, a: Atom)
    requires OpenAt(ss, i, k, a) && k < |ss| && !Ignores(ss[k], a)
    ensures Redefined(ss, i, |ss|) <==> a !in AtomUse(ss[k])
    ensures forall b: Atom :: !OpenAt(ss, i, |ss|, b)
  {
    if a !in AtomUse(ss[k]) {
      assert RedefinedAt(ss, i, |ss|, a);
    } else {
      forall b: Atom ensures !RedefinedAt(ss, i, |ss|, b) {
        if RedefinedAt(ss, i, |ss|, b) {
          var m: nat :| OpenAt(ss, i, m, b) && m < |ss| && b !in AtomUse(ss[m]) && AtomDef(ss[m]) == Some(b);
        }
      }
    }
  }

  /** The walk of `or_pullup` finds a chain if there is one: blocks that share the target and are dominated by `b`, of
      which the last is the first with, or without, the value. */
  lemma {:induction false} WalkFinds(g: Graph, level: seq<int>, or: bool, t: nat, b: nat, dom: seq<set<nat>>,
                                     val: seq<nat>, v: nat, want: bool, r: seq<nat>)
    requires Leveled(g, level) && |dom| == |val| == |g| && Walked(g, or, t, b, dom, val, v, want, r)
    requires r[0] < |g| && level[r[0]] >= 0
    ensures Walk(g, level, or, t, b, dom, val, v, want, r[0]) == r
    decreases |r|
  {
    var x, rest := r[0], Along(g[r[|r| - 1]], or);
    assert Link(g, or, r, t, rest, 0);
    if |r| == 1 {
      assert r == [x];
    } else {
      var r' := r[1..];
      forall k | 0 <= k < |r'| ensures Link(g, or, r', t, rest, k) {
        assert Link(g, or, r, t, rest, k + 1);
      }
      WalkFinds(g, level, or, t, b, dom, val, v, want, r');
      assert r == [x] + r';
    }
  }

  /** So a pull is wanted exactly if all predecessors leave one value in A and there are two such chains, the first
      from `b` to a block without that value, the second from behind it to one with it. */
  lemma WantedExactly(g: Graph, level: seq<int>, dom: seq<set<nat>>, preds: seq<nat>, val: seq<nat>, or: bool, b: nat,
                      r1: seq<nat>, r2: seq<nat>)
    requires Leveled(g, level) && |dom| == |val| == |g| && b < |g| && level[b] >= 0
    requires forall k :: 0 <= k < |preds| ==> preds[k] < |val|
    ensures Wanted(g, level, dom, preds, val, or, b, r1, r2) <==>
              && |preds| > 0 && (forall k :: 0 <= k < |preds| ==> val[preds[k]] == val[preds[0]])
              && var t, v := Common(g[b], or), val[preds[0]];
                 && Walked(g, or, t, b, dom, val, v, false, r1) && r1[0] == b
                 && Walked(g, or, t, b, dom, val, v, true, r2) && r2[0] == Along(g[r1[|r1| - 1]], or)
  {
    if |preds| > 0 {
      var t, v := Common(g[b], or), val[preds[0]];
      WalkIsChain(g, level, or, t, b, dom, val, v, false, b);
      if Walked(g, or, t, b, dom, val, v, false, r1) && r1[0] == b {
        WalkFinds(g, level, or, t, b, dom, val, v, false, r1);
      }
      if r1 == Walk(g, level, or, t, b, dom, val, v, false, b) && r1 != [] {
        var last := r1[|r1| - 1];
        assert Link(g, or, r1, t, Along(g[last], or), |r1| - 1);
        var x := Along(g[last], or);
        WalkIsChain(g, level, or, t, b, dom, val, v, true, x);
        if Walked(g, or, t, b, dom, val, v, true, r2) && r2[0] == x {
          WalkFinds(g, level, or, t, b, dom, val, v, true, r2);
        }
      }
    }
  }

  /** A rewriting sweep leaves no statement in a returning block, nor in one from which nothing is used and which leaves
      A and X with the known numbers it found there; all other blocks keep their length. */
  lemma IdleEmptied(g: Graph, g': Graph, live: set<nat>, n: Numbers, outUse: seq<AtomSet>, b: nat)
    requires SweptGraph(g, g', live, n, true, outUse) && b in live && b < |g|
    ensures if !g[b].s.Jmp? ||
               (outUse[b] == {} && n.entry[b][A_ATOM] != 0 && n.entry[b][X_ATOM] != 0 &&
                n.exit[b][A_ATOM] == n.entry[b][A_ATOM] && n.exit[b][X_ATOM] == n.entry[b][X_ATOM])
            then g'[b].stmts == []
            else |g'[b].stmts| == |g[b].stmts|
  {
    assert FinishedAt(g, g', n, true, outUse, b);
  }

  lemma {:induction false} ThreeEach(g: Graph, s: set<nat>, f: Flags, n: nat)
    requires n <= |g| && Fits(g, f) && forall i :: 0 <= i < |g| ==> !f.jt[i] && !f.jf[i]
    ensures MaxVal(g, s, n) == 3 * Total(g, f, s, n)
  {
    if n > 0 {
      ThreeEach(g, s, f, n - 1);
    }
  }

  /** The numbers allocated are three for each instruction that the blocks would make without long jumps. */
  lemma AllocatedThrice(g: Graph, s: set<nat>)
    ensures var none := Flags(seq(|g|, _ => false), seq(|g|, _ => false));
            MaxVal(g, s, |g|) == 3 * Total(g, none, s, |g|)
  {
    ThreeEach(g, s, Flags(seq(|g|, _ => false), seq(|g|, _ => false)), |g|);
  }
}
