/** Blocks on which the statement rewrites of the first loop cannot go wrong: X is dead after every indexed load,
    and nothing is masked with or tested against all bits.  Sweeps leave such blocks such, and never make them
    abort. */
module PlainBlocks {
  import opened Collections
  import opened Machine
  import opened Liveness
  import opened Peephole
  import opened Sweep
  import opened SweptClosed

  predicate NoMask(ss: seq<Stmt>) {
    forall i :: 0 <= i < |ss| ==> ss[i] != AluK(And, 0xffffffff)
  }

  predicate Plain(ss: seq<Stmt>, s: Branch) {
    NoLateX(ss, s) && NoMask(ss) && !FullMask(s)
  }

  /** Plain blocks meet what the constant-index rewrite takes for granted and have no test of all bits. */
  lemma PlainSpares(b: Block, outUse: AtomSet)
    requires Plain(b.stmts, b.s)
    ensures FreshX(b.stmts, b.s, outUse, 0) && !TestsAllBits(b, outUse)
  {
  }

  lemma {:induction false} DeadXIsLive(ss: seq<Stmt>, s: Branch)
    ensures DeadX(ss, s) <==> X_ATOM !in LiveIn(ss, s, {})
  {
    if ss != [] {
      DeadXIsLive(ss[1..], s);
    }
  }

  lemma LessKeepsNoLateX(ss: seq<Stmt>, ss': seq<Stmt>, s: Branch, s': Branch)
    requires NoLateX(ss, s) && ReadsLess(ss, ss', s, s')
    ensures NoLateX(ss', s')
  {
    forall j | 0 <= j < |ss'| && ss'[j].LdInd? ensures DeadX(ss'[j + 1..], s') {
      DeadXIsLive(ss[j + 1..], s);
      DeadXIsLive(ss'[j + 1..], s');
    }
  }

  lemma TurnNoMask(ss: seq<Stmt>, last: nat, outUse: AtomSet, gone: bool)
    requires NoMask(ss) && last < |ss| && Turn(ss, last, outUse, gone).Some?
    ensures NoMask(Turn(ss, last, outUse, gone).value.ss)
  {
  }

  lemma {:induction false} LoopNoMask(ss: seq<Stmt>, last: nat, outUse: AtomSet, gone: bool)
    requires NoMask(ss) && last < |ss|
    ensures NoMask(PeepFrom(ss, last, outUse, gone).ss)
    decreases |ss| - last
  {
    var r := Turn(ss, last, outUse, gone);
    if r.Some? {
      TurnNoMask(ss, last, outUse, gone);
      LoopNoMask(r.value.ss, r.value.last, outUse, r.value.gone);
    }
  }

  lemma TailNoMask(b: Block, last: nat, outUse: AtomSet, cx: Option<Word>)
    requires NoMask(b.stmts) && !FullMask(b.s) && last < |b.stmts|
    ensures var b' := PeepTail(b, last, outUse, cx); NoMask(b'.stmts) && !FullMask(b'.s)
  {
  }

  lemma PeepNoMask(b: Block, outUse: AtomSet, ca: Option<Word>, cx: Option<Word>)
    requires NoMask(b.stmts) && !FullMask(b.s)
    ensures var b' := PeepBlock(b, outUse, ca, cx); NoMask(b'.stmts) && !FullMask(b'.s)
  {
    if b.s.Jmp? && b.stmts != [] {
      var r := PeepFrom(b.stmts, 0, outUse, false);
      LoopNoMask(b.stmts, 0, outUse, false);
      TailNoMask(b.(stmts := r.ss), r.last, outUse, cx);
      EndLive(b, r, outUse, ca, cx);
    }
  }

  /** A sweep leaves plain blocks plain. */
  lemma FinishedPlain(b: Block, b': Block, outUse: AtomSet, ca: Option<Word>, cx: Option<Word>)
    requires Plain(b.stmts, b.s) && Finished(b, b', false, outUse, ca, cx)
    ensures Plain(b'.stmts, b'.s)
  {
    FinishedReadsLess(b, b', outUse, ca, cx);
    LessKeepsNoLateX(b.stmts, b'.stmts, b.s, b'.s);
    PeepNoMask(b, outUse, ca, cx);
  }

  /** Whenever `ss` runs to the end so does `ss'`. */
  ghost predicate RunsToo(ss: seq<Stmt>, ss': seq<Stmt>) {
    forall st: State, p: Packet :: ExecAll(ss, st, p).Some? ==> ExecAll(ss', st, p).Some?
  }

  lemma ReloadRuns(ss: seq<Stmt>, i: nat, j: nat)
    requires i < j < |ss| && NopsIn(ss, i + 1, j) && ss[i].St? && ss[j] == LdxMem(ss[i].m)
    ensures RunsToo(ss, ss[j := Tax])
  {
    forall st: State, p: Packet | ExecAll(ss, st, p).Some? ensures ExecAll(ss[j := Tax], st, p).Some? {
      StoreReload(ss, i, j, st, p);
    }
  }

  lemma TransferRuns(ss: seq<Stmt>, i: nat, j: nat)
    requires i < j < |ss| && NopsIn(ss, i + 1, j) && ss[i].LdImm? && ss[j] == Tax
    ensures RunsToo(ss, ss[i := LdxImm(ss[i].k)][j := Txa])
  {
    var ss' := ss[i := LdxImm(ss[i].k)][j := Txa];
    forall st: State, p: Packet | ExecAll(ss, st, p).Some? ensures ExecAll(ss', st, p).Some? {
      LoadTransfer(ss, i, j, st, p);
    }
  }

  lemma FoldedRuns(ss: seq<Stmt>, ldi: nat, next: nat, add: nat, tax: nat, ild: nat, s: Branch)
    requires NoLateX(ss, s) && IndexPattern(ss, ldi, next, add, tax, ild)
    ensures RunsToo(ss, FoldIndex(ss, ldi, add, tax, ild))
  {
    var ss' := FoldIndex(ss, ldi, add, tax, ild);
    forall st: State, p: Packet | ExecAll(ss, st, p).Some? ensures ExecAll(ss', st, p).Some? {
      IndexFolded(ss, ldi, next, add, tax, ild, s, st, p);
    }
  }

  lemma PairRuns(ss: seq<Stmt>, i: nat, next: nat, s: Branch, outUse: AtomSet, gone: bool)
    requires NoLateX(ss, s) && i < next < |ss| && NopsIn(ss, i + 1, next)
    ensures RunsToo(ss, PairAt(ss, i, next, outUse, gone).ss)
  {
    if ss[i].St? && ss[next] == LdxMem(ss[i].m) {
      ReloadRuns(ss, i, next);
    } else if ss[i].LdImm? && ss[next].Tax? {
      TransferRuns(ss, i, next);
    } else {
      var r := SpotsAfter(ss, next);
      if IndexPattern(ss, i, next, r.add, r.tax, r.ild) {
        FoldedRuns(ss, i, next, r.add, r.tax, r.ild, s);
      }
    }
  }

  lemma {:induction false} LoopRuns(ss: seq<Stmt>, last: nat, s: Branch, outUse: AtomSet, gone: bool)
    requires NoLateX(ss, s) && last < |ss|
    ensures RunsToo(ss, PeepFrom(ss, last, outUse, gone).ss)
    decreases |ss| - last
  {
    var r := Turn(ss, last, outUse, gone);
    if r.Some? {
      var i := NextOp(ss, last);
      PairRuns(ss, i, NextOp(ss, i + 1), s, outUse, gone);
      TurnLive(ss, s, last, outUse, gone);
      LessKeepsNoLateX(ss, r.value.ss, s, s);
      LoopRuns(r.value.ss, r.value.last, s, outUse, r.value.gone);
    }
  }

  lemma TailRuns(b: Block, last: nat, outUse: AtomSet, cx: Option<Word>)
    requires last < |b.stmts| && (b.stmts[last] == Nop || NopsIn(b.stmts, last + 1, |b.stmts|))
    ensures RunsToo(b.stmts, PeepTail(b, last, outUse, cx).stmts)
  {
    if PeepTail(b, last, outUse, cx) != b {
      forall st: State, p: Packet | ExecAll(b.stmts, st, p).Some?
        ensures ExecAll(PeepTail(b, last, outUse, cx).stmts, st, p).Some?
      {
        LastStep(b.stmts, last, st, p);
      }
    }
  }

  lemma PeepRuns(b: Block, outUse: AtomSet, ca: Option<Word>, cx: Option<Word>)
    requires NoLateX(b.stmts, b.s)
    ensures RunsToo(b.stmts, PeepBlock(b, outUse, ca, cx).stmts)
  {
    if b.s.Jmp? && b.stmts != [] {
      var r := PeepFrom(b.stmts, 0, outUse, false);
      LoopRuns(b.stmts, 0, b.s, outUse, false);
      LoopStopsAtEnd(b.stmts, 0, outUse, false);
      TailRuns(b.(stmts := r.ss), r.last, outUse, cx);
      EndLive(b, r, outUse, ca, cx);
    }
  }

  /** And never makes them abort. */
  lemma FinishedRuns(b: Block, b': Block, outUse: AtomSet, ca: Option<Word>, cx: Option<Word>)
    requires Plain(b.stmts, b.s) && Finished(b, b', false, outUse, ca, cx)
    ensures RunsToo(b.stmts, b'.stmts)
  {
    PeepRuns(b, outUse, ca, cx);
  }
}
