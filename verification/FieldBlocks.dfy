/** Blocks that load fields and constants into A, mask it and compare it with a constant, as `gen_ncmp` makes them:
    what the passes of the optimizer make of one such block. */
module FieldBlocks {
  import opened Collections
  import opened Machine
  import opened Atoms
  import opened Liveness
  import opened DeadStores
  import opened ValueNumbers
  import opened Numbering
  import opened Peephole
  import opened Sweep
  import opened SweptClosed
  import opened PlainBlocks

  predicate FieldStmt(s: Stmt) {
    s == Nop || s.LdAbs? || s.LdImm? || (s.AluK? && s.op.And? && s.k != 0xffffffff)
  }

  predicate FieldStmts(ss: seq<Stmt>) {
    forall i :: 0 <= i < |ss| ==> FieldStmt(ss[i])
  }

  predicate FieldBranch(s: Branch) {
    s.RetK? || (s.Jmp? && s.src.FromK? && !FullMask(s))
  }

  predicate FieldBlock(b: Block) {
    FieldStmts(b.stmts) && FieldBranch(b.s)
  }

  lemma FieldRest(ss: seq<Stmt>)
    requires FieldStmts(ss) && ss != []
    ensures FieldStmt(ss[0]) && FieldStmts(ss[1..])
  {
  }

  /** Such blocks are plain, whatever is live out and whatever is read first. */
  lemma FieldIsPlain(b: Block, outUse: AtomSet)
    requires FieldBlock(b)
    ensures Plain(b.stmts, b.s) && FreshX(b.stmts, b.s, outUse, 0) && !TestsAllBits(b, outUse)
  {
  }

  /** The key A has after `s`, if it is a field or a constant. */
  function KeyStep(s: Stmt, key: Option<Key>): Option<Key> {
    match s
    case LdAbs(size, k) => Some(KAbs(size, k))
    case LdImm(k) => Some(KImm(k))
    case AluK(_, _) => None
    case _ => key
  }

  function KeyAfter(ss: seq<Stmt>, key: Option<Key>): Option<Key> {
    if ss == [] then key else KeyAfter(ss[1..], KeyStep(ss[0], key))
  }

  /** The key of number `v`, if it is a field or a constant. */
  function SimpleKey(tbl: Table, v: nat): Option<Key> {
    if 0 < v <= |tbl| && (tbl[v - 1].KAbs? || tbl[v - 1].KImm?) then Some(tbl[v - 1]) else None
  }

  lemma SimpleStays(tbl: Table, tbl': Table, v: nat)
    requires tbl <= tbl' && v <= |tbl|
    ensures SimpleKey(tbl', v) == SimpleKey(tbl, v)
  {
  }

  /** A is read before it is written. */
  predicate ReadsA(ss: seq<Stmt>, s: Branch) {
    A_ATOM in LiveIn(ss, s, {})
  }

  /** One statement, numbered with rewriting: still a field statement, and A's number has the key that the
      statement left says. */
  lemma FieldStep(vs: VState, s: Stmt)
    requires InTable(vs.tbl, vs.val) && FieldStmt(s)
    ensures var r := OptStmt(vs, s, true);
            && r.Done? && FieldStmt(r.s) && vs.tbl <= r.vs.tbl && InTable(r.vs.tbl, r.vs.val)
            && SimpleKey(r.vs.tbl, r.vs.val[A_ATOM]) == KeyStep(r.s, SimpleKey(vs.tbl, vs.val[A_ATOM]))
            && r.vs.val[X_ATOM] == vs.val[X_ATOM]
            && (r.s == Nop && s != Nop ==> SimpleKey(vs.tbl, vs.val[A_ATOM]) == KeyStep(s, None) != None)
            && (s != Nop ==> r.vs.val[A_ATOM] != 0) && (s == Nop ==> r == Done(vs, Nop))
            && (s.AluK? ==> r.s != Nop)
  {
    if s.AluK? {
      FieldMask(vs, s.k);
    }
  }

  lemma FieldMask(vs: VState, k: Word)
    requires InTable(vs.tbl, vs.val) && k != 0xffffffff
    ensures var r := OptAluK(vs, And, k, true);
            && r.Done? && FieldStmt(r.s) && r.s != Nop && vs.tbl <= r.vs.tbl && InTable(r.vs.tbl, r.vs.val)
            && SimpleKey(r.vs.tbl, r.vs.val[A_ATOM]) == KeyStep(r.s, None)
            && r.vs.val[X_ATOM] == vs.val[X_ATOM] && r.vs.val[A_ATOM] != 0
  {
  }

  /** A whole block: it cannot fail, its statements stay field statements, and A's number on exit has the key
      that they say. */
  lemma {:induction false} FieldNumbered(vs: VState, ss: seq<Stmt>)
    requires InTable(vs.tbl, vs.val) && FieldStmts(ss)
    ensures var r := OptStmts(vs, ss, true);
            && r.BDone? && FieldStmts(r.ss) && r.vs.val[X_ATOM] == vs.val[X_ATOM]
            && SimpleKey(r.vs.tbl, r.vs.val[A_ATOM]) == KeyAfter(r.ss, SimpleKey(vs.tbl, vs.val[A_ATOM]))
    decreases ss
  {
    if ss != [] {
      FieldRest(ss);
      FieldStep(vs, ss[0]);
      var step := OptStmt(vs, ss[0], true);
      FieldNumbered(step.vs, ss[1..]);
      var r := OptStmts(step.vs, ss[1..], true);
      assert ([step.s] + r.ss)[1..] == r.ss;
    }
  }

  /** If `ss` says what A is on exit, given `key` on entry, numbering knows it. */
  lemma {:induction false} NumberingKnows(vs: VState, ss: seq<Stmt>, key: Option<Key>)
    requires InTable(vs.tbl, vs.val) && FieldStmts(ss)
    requires key.Some? ==> SimpleKey(vs.tbl, vs.val[A_ATOM]) == key
    ensures var r := OptStmts(vs, ss, true);
            r.BDone? && (KeyAfter(ss, key).Some? ==> SimpleKey(r.vs.tbl, r.vs.val[A_ATOM]) == KeyAfter(ss, key))
    decreases ss
  {
    if ss != [] {
      FieldRest(ss);
      FieldStep(vs, ss[0]);
      var step := OptStmt(vs, ss[0], true);
      NumberingKnows(step.vs, ss[1..], KeyStep(ss[0], key));
    }
  }

  lemma {:induction false} FieldReadsKnown(vs: VState, ss: seq<Stmt>, s: Branch)
    requires InTable(vs.tbl, vs.val) && FieldStmts(ss) && (ReadsA(ss, s) ==> vs.val[A_ATOM] != 0)
    ensures AllReadsKnown(vs, ss, true)
    decreases ss
  {
    if ss != [] {
      FieldRest(ss);
      FieldStep(vs, ss[0]);
      FieldReadsKnown(OptStmt(vs, ss[0], true).vs, ss[1..], s);
    }
  }

  lemma ReadsFirst(x: Stmt, rest: seq<Stmt>, s: Branch)
    requires FieldStmt(x)
    ensures ReadsA([x] + rest, s) <==> x.AluK? || (x == Nop && ReadsA(rest, s))
  {
    assert ([x] + rest)[1..] == rest;
  }

  /** A block that comes to read A on entry has had a load deleted, of what A is known to be. */
  lemma {:induction false} NewReadIsKnown(vs: VState, ss: seq<Stmt>, s: Branch)
    requires InTable(vs.tbl, vs.val) && FieldStmts(ss) && !ReadsA(ss, s)
    ensures var r := OptStmts(vs, ss, true);
            r.BDone? && (ReadsA(r.ss, s) ==> SimpleKey(vs.tbl, vs.val[A_ATOM]).Some?)
    decreases ss
  {
    if ss != [] {
      FieldRest(ss);
      FieldStep(vs, ss[0]);
      var step := OptStmt(vs, ss[0], true);
      FieldNumbered(step.vs, ss[1..]);
      ReadsFirst(step.s, OptStmts(step.vs, ss[1..], true).ss, s);
      assert ss == [ss[0]] + ss[1..];
      ReadsFirst(ss[0], ss[1..], s);
      if ss[0] == Nop {
        NewReadIsKnown(step.vs, ss[1..], s);
      }
    }
  }

  /** Where the loop of `opt_peep` finds nothing to rewrite. */
  lemma {:induction false} FieldLoop(ss: seq<Stmt>, last: nat, outUse: AtomSet, gone: bool)
    requires FieldStmts(ss) && last < |ss|
    ensures var r := PeepFrom(ss, last, outUse, gone); r.ss == ss && r.gone == gone
    decreases |ss| - last
  {
    var r := Turn(ss, last, outUse, gone);
    if r.Some? {
      FieldTurn(ss, last, outUse, gone);
      FieldLoop(ss, r.value.last, outUse, gone);
    }
  }

  lemma FieldTurn(ss: seq<Stmt>, last: nat, outUse: AtomSet, gone: bool)
    requires FieldStmts(ss) && last < |ss| && Turn(ss, last, outUse, gone).Some?
    ensures var r := Turn(ss, last, outUse, gone).value; r.ss == ss && r.gone == gone
  {
    var i := NextOp(ss, last);
    var next := NextOp(ss, i + 1);
    assert FieldStmt(ss[i]) && FieldStmt(ss[next]);
    var r := SpotsAfter(ss, next);
    assert r.add < |ss| ==> FieldStmt(ss[r.add]);
  }

  /** After a mask that is the last real statement nothing is known of A. */
  lemma {:induction false} MaskLast(ss: seq<Stmt>, last: nat, key: Option<Key>)
    requires last < |ss| && ss[last].AluK? && NopsIn(ss, last + 1, |ss|)
    ensures KeyAfter(ss, key) == None
    decreases last
  {
    if last == 0 {
      NopsKeep(ss[1..], None);
    } else {
      assert ss[1..][last - 1] == ss[last];
      assert NopsIn(ss[1..], last, |ss| - 1) by {
        forall k | last <= k < |ss| - 1 ensures ss[1..][k] == Nop { assert ss[1..][k] == ss[k + 1]; }
      }
      MaskLast(ss[1..], last - 1, KeyStep(ss[0], key));
    }
  }

  lemma {:induction false} NopsKeep(ss: seq<Stmt>, key: Option<Key>)
    requires NopsIn(ss, 0, |ss|)
    ensures KeyAfter(ss, key) == key
  {
    if ss != [] {
      NopsKeep(ss[1..], key);
    }
  }

  /** What `opt_peep` does with such a block: at most it turns a mask and comparison with 0 into "jset". */
  lemma FieldPeeped(b: Block, outUse: AtomSet, ca: Option<Word>, cx: Option<Word>, key: Option<Key>)
    requires FieldBlock(b)
    ensures var b' := PeepBlock(b, outUse, ca, cx);
            && FieldBlock(b') && (b'.s.Jmp? <==> b.s.Jmp?)
            && (KeyAfter(b.stmts, key).Some? ==> b'.stmts == b.stmts && PeepLost(b, outUse, cx) == {})
  {
    if b.s.Jmp? && b.stmts != [] {
      var r := PeepFrom(b.stmts, 0, outUse, false);
      FieldLoop(b.stmts, 0, outUse, false);
      LoopStopsAtEnd(b.stmts, 0, outUse, false);
      EndLive(b, r, outUse, ca, cx);
      assert FieldStmt(b.stmts[r.last]) && b.(stmts := r.ss) == b;
      FieldTail(b, r.last, outUse, cx);
      if PeepTail(b, r.last, outUse, cx) != b {
        MaskLast(b.stmts, r.last, key);
      }
    }
  }

  lemma FieldTail(b: Block, last: nat, outUse: AtomSet, cx: Option<Word>)
    requires FieldBlock(b) && last < |b.stmts|
    ensures FieldBlock(PeepTail(b, last, outUse, cx)) && (PeepTail(b, last, outUse, cx).s.Jmp? <==> b.s.Jmp?)
    ensures PeepTail(b, last, outUse, cx) != b ==> b.stmts[last].AluK?
  {
    assert FieldStmt(b.stmts[last]);
  }

  /** What comes before the next definition of A does not show in its key. */
  lemma {:induction false} KeyOverwritten(ss: seq<Stmt>, k: nat, key: Option<Key>, key': Option<Key>)
    requires FieldStmts(ss) && k < |ss| && ss[k] != Nop
    ensures KeyAfter(ss, key) == KeyAfter(ss, key')
    decreases k
  {
    if k > 0 {
      FieldRest(ss);
      KeyOverwritten(ss[1..], k - 1, KeyStep(ss[0], key), KeyStep(ss[0], key'));
    } else {
      assert FieldStmt(ss[0]);
    }
  }

  /** A dead store is followed by another definition of A. */
  lemma DeadIsFollowed(ss: seq<Stmt>, on: set<Atom>, i: nat) returns (k: nat)
    requires FieldStmts(ss) && i < |ss| && A_ATOM in on && DeadAt(ss, on, i)
    ensures i < k < |ss| && ss[k] != Nop
  {
    assert FieldStmt(ss[i]);
    var a: Atom :| RedefinedAt(ss, i, |ss|, a);
    k :| OpenAt(ss, i, k, a) && k < |ss| && a !in AtomUse(ss[k]) && AtomDef(ss[k]) == Some(a);
  }

  /** Deleting dead stores keeps the key. */
  lemma {:induction false} FieldCleaned(ss: seq<Stmt>, ss': seq<Stmt>, on: set<Atom>, i: nat, key: Option<Key>)
    requires FieldStmts(ss) && i <= |ss| == |ss'| && A_ATOM in on
    requires forall k :: 0 <= k < |ss| ==> ss'[k] == if DeadAt(ss, on, k) then Nop else ss[k]
    ensures KeyAfter(ss'[i..], key) == KeyAfter(ss[i..], key)
    decreases |ss| - i
  {
    if i < |ss| {
      assert ss[i..][0] == ss[i] && ss[i..][1..] == ss[i + 1..];
      assert ss'[i..][0] == ss'[i] && ss'[i..][1..] == ss'[i + 1..];
      FieldCleaned(ss, ss', on, i + 1, KeyStep(ss'[i], key));
      if DeadAt(ss, on, i) {
        var k := DeadIsFollowed(ss, on, i);
        assert ss[i + 1..][k - i - 1] == ss[k];
        KeyOverwritten(ss[i + 1..], k - i - 1, key, KeyStep(ss[i], key));
      }
    }
  }

  /** A block of the sweep: still a field block, with its key if it has one. */
  lemma FieldFinished(b: Block, b': Block, outUse: AtomSet, ca: Option<Word>, cx: Option<Word>, key: Option<Key>)
    requires FieldBlock(b) && Finished(b, b', false, outUse, ca, cx)
    ensures FieldBlock(b') && (b'.s.Jmp? <==> b.s.Jmp?)
    ensures b.s.Jmp? && KeyAfter(b.stmts, key).Some? ==> KeyAfter(b'.stmts, key) == KeyAfter(b.stmts, key)
  {
    var b2 := PeepBlock(b, outUse, ca, cx);
    var on := outUse + BranchUse(b2.s);
    FieldPeeped(b, outUse, ca, cx, key);
    if b.s.Jmp? {
      assert A_ATOM in on;
      FieldCleaned(b2.stmts, b'.stmts, on, 0, key);
      assert b2.stmts[0..] == b2.stmts && b'.stmts[0..] == b'.stmts;
    }
  }

  /** If A's key is known at the end of a block, finishing the block does not lose A. */
  lemma FieldLoses(b: Block, outUse: AtomSet, ca: Option<Word>, cx: Option<Word>, key: Option<Key>)
    requires FieldBlock(b) && b.s.Jmp? && KeyAfter(b.stmts, key).Some?
    ensures A_ATOM !in Lost(b, outUse, ca, cx)
  {
    FieldPeeped(b, outUse, ca, cx, key);
    assert A_ATOM in BranchUse(PeepBlock(b, outUse, ca, cx).s);
  }
}
