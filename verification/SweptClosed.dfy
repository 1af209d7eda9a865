/** The peephole rewrites and the deletion of dead stores never make a block read more, from its start or after an
    indexed load, so self-contained blocks stay self-contained and the first loop of the optimizer can take its next
    turn. */
module SweptClosed {
  import opened Collections
  import opened Machine
  import opened Atoms
  import opened Liveness
  import opened DeadStores
  import opened Peephole
  import opened Sweep

  /** A block is self-contained when nothing is live in for its branch alone. */
  lemma {:induction false} ClosedIsLive(ss: seq<Stmt>, s: Branch, def: set<Atom>)
    requires !s.RetA?
    ensures Closed(ss, s, def) <==> LiveIn(ss, s, {}) <= def
    decreases ss
  {
    if ss != [] {
      var def' := if AtomDef(ss[0]).Some? then def + {AtomDef(ss[0]).value} else def;
      ClosedIsLive(ss[1..], s, def');
      StepIn(LiveIn(ss[1..], s, {}), DefSet(ss[0]), AtomUse(ss[0]), def, def');
    }
  }

  lemma StepIn(after: set<Atom>, defs: set<Atom>, used: set<Atom>, def: set<Atom>, def': set<Atom>)
    requires def' == def + defs
    ensures (after - defs) + used <= def <==> used <= def && after <= def'
  {
    if (after - defs) + used <= def {
      forall a | a in after ensures a in def' {
        assert a in defs || a in after - defs;
      }
    }
  }

  lemma {:induction false} SkipNopsLive(ss: seq<Stmt>, s: Branch, i: nat, j: nat)
    requires i <= j <= |ss| && NopsIn(ss, i, j)
    ensures LiveIn(ss[i..], s, {}) == LiveIn(ss[j..], s, {})
    decreases j - i
  {
    if i < j {
      assert ss[i..][0] == Nop && ss[i..][1..] == ss[i + 1..];
      SkipNopsLive(ss, s, i + 1, j);
    }
  }

  /** What is live before `ss[i]`, if only deleted statements come between it and position `j`. */
  lemma StepLive(ss: seq<Stmt>, s: Branch, i: nat, j: nat)
    requires i < j <= |ss| && NopsIn(ss, i + 1, j)
    ensures LiveIn(ss[i..], s, {}) == (LiveIn(ss[j..], s, {}) - DefSet(ss[i])) + AtomUse(ss[i])
  {
    assert ss[i..][0] == ss[i] && ss[i..][1..] == ss[i + 1..];
    SkipNopsLive(ss, s, i + 1, j);
  }

  /** Behind the indexed loads of `ss'` from position `i` on less is live than behind those of `ss`. */
  predicate LessBehindLoads(ss: seq<Stmt>, ss': seq<Stmt>, s: Branch, s': Branch, i: nat) {
    && |ss'| == |ss|
    && forall j :: i <= j < |ss| && ss'[j].LdInd? ==>
         ss[j].LdInd? && LiveIn(ss'[j + 1..], s', {}) <= LiveIn(ss[j + 1..], s, {})
  }

  /** Less is live at the start and behind every indexed load. */
  predicate ReadsLess(ss: seq<Stmt>, ss': seq<Stmt>, s: Branch, s': Branch) {
    LiveIn(ss', s', {}) <= LiveIn(ss, s, {}) && LessBehindLoads(ss, ss', s, s', 0)
  }

  lemma ReadsLessTwice(s0: seq<Stmt>, s1: seq<Stmt>, s2: seq<Stmt>, t0: Branch, t1: Branch, t2: Branch)
    requires ReadsLess(s0, s1, t0, t1) && ReadsLess(s1, s2, t1, t2)
    ensures ReadsLess(s0, s2, t0, t2)
  {
  }

  /** If less is live at `i`, less is live at `k` before it. */
  lemma {:induction false} LessAt(ss: seq<Stmt>, ss': seq<Stmt>, s: Branch, s': Branch, i: nat, k: nat)
    requires k <= i <= |ss| == |ss'| && ss'[..i] == ss[..i] && LiveIn(ss'[i..], s', {}) <= LiveIn(ss[i..], s, {})
    ensures LiveIn(ss'[k..], s', {}) <= LiveIn(ss[k..], s, {})
    decreases i - k
  {
    if k < i {
      assert ss'[k] == ss'[..i][k] == ss[k];
      StepLive(ss, s, k, k + 1);
      StepLive(ss', s', k, k + 1);
      LessAt(ss, ss', s, s', i, k + 1);
    }
  }

  lemma LessBefore(ss: seq<Stmt>, ss': seq<Stmt>, s: Branch, s': Branch, i: nat)
    requires i <= |ss| == |ss'| && ss'[..i] == ss[..i] && LiveIn(ss'[i..], s', {}) <= LiveIn(ss[i..], s, {})
    requires LessBehindLoads(ss, ss', s, s', i)
    ensures ReadsLess(ss, ss', s, s')
  {
    LessAt(ss, ss', s, s', i, 0);
    assert ss[0..] == ss && ss'[0..] == ss';
    forall j | 0 <= j < i && ss'[j].LdInd?
      ensures ss[j].LdInd? && LiveIn(ss'[j + 1..], s', {}) <= LiveIn(ss[j + 1..], s, {})
    {
      assert ss'[j] == ss'[..i][j] == ss[j];
      LessAt(ss, ss', s, s', i, j + 1);
    }
  }

  /** From where the lists are the same there is nothing to show. */
  lemma SameBehind(ss: seq<Stmt>, ss': seq<Stmt>, s: Branch, i: nat, k: nat)
    requires i <= k < |ss| == |ss'| && ss'[k + 1..] == ss[k + 1..]
    requires forall j :: i <= j <= k && ss'[j].LdInd? ==> j == k && ss[j].LdInd?
    ensures LessBehindLoads(ss, ss', s, s, i)
  {
    forall j | i <= j < |ss| && ss'[j].LdInd?
      ensures ss[j].LdInd? && LiveIn(ss'[j + 1..], s, {}) <= LiveIn(ss[j + 1..], s, {})
    {
      if j > k {
        assert ss'[j] == ss'[k + 1..][j - k - 1] == ss[j];
      }
      assert ss'[j + 1..] == ss'[k + 1..][j - k..] == ss[j + 1..];
    }
  }

  lemma StoreReloadLive(ss: seq<Stmt>, s: Branch, i: nat, j: nat)
    requires i < j < |ss| && NopsIn(ss, i + 1, j) && ss[i].St? && ss[j] == LdxMem(ss[i].m)
    ensures ReadsLess(ss, ss[j := Tax], s, s)
  {
    var ss' := ss[j := Tax];
    StepLive(ss, s, i, j);
    StepLive(ss, s, j, j + 1);
    StepLive(ss', s, i, j);
    StepLive(ss', s, j, j + 1);
    assert ss'[j + 1..] == ss[j + 1..];
    SameBehind(ss, ss', s, i, j);
    LessBefore(ss, ss', s, s, i);
  }

  lemma LoadTransferLive(ss: seq<Stmt>, s: Branch, i: nat, j: nat)
    requires i < j < |ss| && NopsIn(ss, i + 1, j) && ss[i].LdImm? && ss[j] == Tax
    ensures ReadsLess(ss, ss[i := LdxImm(ss[i].k)][j := Txa], s, s)
  {
    var ss' := ss[i := LdxImm(ss[i].k)][j := Txa];
    TransferFrom(ss, ss', s, i, j);
    SameBehind(ss, ss', s, i, j);
    assert ss'[..i] == ss[..i];
    LessBefore(ss, ss', s, s, i);
  }

  lemma TransferFrom(ss: seq<Stmt>, ss': seq<Stmt>, s: Branch, i: nat, j: nat)
    requires i < j < |ss| == |ss'| && NopsIn(ss, i + 1, j) && NopsIn(ss', i + 1, j) && ss'[j + 1..] == ss[j + 1..]
    requires ss[i].LdImm? && ss[j] == Tax && ss'[i].LdxImm? && ss'[j] == Txa
    ensures LiveIn(ss'[i..], s, {}) <= LiveIn(ss[i..], s, {})
  {
    StepLive(ss, s, i, j);
    StepLive(ss, s, j, j + 1);
    StepLive(ss', s, i, j);
    StepLive(ss', s, j, j + 1);
  }

  lemma AddOnLive(ss: seq<Stmt>, ss': seq<Stmt>, s: Branch, add: nat, tax: nat, ild: nat)
    requires add < tax < ild < |ss| == |ss'| && ss[add] == AluX(Add) && ss[tax] == Tax && ss[ild].LdInd?
    requires NopsIn(ss, add + 1, tax) && NopsIn(ss, tax + 1, ild) && NopsIn(ss', add, ild) && ss'[ild].LdInd?
    requires ss'[ild + 1..] == ss[ild + 1..]
    ensures LiveIn(ss'[add..], s, {}) + {A_ATOM} == LiveIn(ss[add..], s, {}) && A_ATOM !in LiveIn(ss'[add..], s, {})
  {
    StepLive(ss, s, add, tax);
    StepLive(ss, s, tax, ild);
    StepLive(ss, s, ild, ild + 1);
    SkipNopsLive(ss', s, add, ild);
    StepLive(ss', s, ild, ild + 1);
  }

  lemma FromLdiLive(ss: seq<Stmt>, ss': seq<Stmt>, s: Branch, ldi: nat, next: nat, add: nat, tax: nat, ild: nat)
    requires IndexPattern(ss, ldi, next, add, tax, ild) && Folded(ss, ss', ldi, next, add, ild)
    ensures LiveIn(ss'[ldi..], s, {}) <= LiveIn(ss[ldi..], s, {})
  {
    AddOnLive(ss, ss', s, add, tax, ild);
    StepLive(ss, s, ldi, next);
    SkipNopsLive(ss', s, ldi, next);
    if next < add {
      StepLive(ss, s, next, add);
      StepLive(ss', s, next, add);
    }
  }

  lemma FoldLive(ss: seq<Stmt>, s: Branch, ldi: nat, next: nat, add: nat, tax: nat, ild: nat)
    requires IndexPattern(ss, ldi, next, add, tax, ild)
    ensures ReadsLess(ss, FoldIndex(ss, ldi, add, tax, ild), s, s)
  {
    var ss' := FoldIndex(ss, ldi, add, tax, ild);
    FoldShape(ss, ldi, next, add, tax, ild);
    FromLdiLive(ss, ss', s, ldi, next, add, tax, ild);
    SameBehind(ss, ss', s, ldi, ild);
    assert ss'[..ldi] == ss[..ldi];
    LessBefore(ss, ss', s, s, ldi);
  }

  lemma TurnLive(ss: seq<Stmt>, s: Branch, last: nat, outUse: set<Atom>, gone: bool)
    requires last < |ss| && Turn(ss, last, outUse, gone).Some?
    ensures ReadsLess(ss, Turn(ss, last, outUse, gone).value.ss, s, s)
  {
    var i := NextOp(ss, last);
    var next := NextOp(ss, i + 1);
    if ss[i].St? && ss[next] == LdxMem(ss[i].m) {
      StoreReloadLive(ss, s, i, next);
    } else if ss[i].LdImm? && ss[next].Tax? {
      LoadTransferLive(ss, s, i, next);
    } else {
      var r := SpotsAfter(ss, next);
      if IndexPattern(ss, i, next, r.add, r.tax, r.ild) {
        FoldLive(ss, s, i, next, r.add, r.tax, r.ild);
      }
    }
  }

  lemma {:induction false} LoopLive(ss: seq<Stmt>, s: Branch, last: nat, outUse: set<Atom>, gone: bool)
    requires last < |ss|
    ensures ReadsLess(ss, PeepFrom(ss, last, outUse, gone).ss, s, s)
    decreases |ss| - last
  {
    var r := Turn(ss, last, outUse, gone);
    if r.Some? {
      TurnLive(ss, s, last, outUse, gone);
      LoopLive(r.value.ss, s, r.value.last, outUse, r.value.gone);
      ReadsLessTwice(ss, r.value.ss, PeepFrom(ss, last, outUse, gone).ss, s, s, s);
    }
  }

  lemma TailStepLive(ss: seq<Stmt>, s: Branch, s': Branch, last: nat)
    requires last < |ss| && NopsIn(ss, last + 1, |ss|) && s.Jmp? && s'.Jmp? && s.src.FromK?
    requires IsAlu(ss[last]) && (s'.src.FromX? ==> ss[last].AluX?)
    ensures ReadsLess(ss, ss[last := Nop], s, s')
  {
    var ss' := ss[last := Nop];
    assert ss[|ss|..] == [] && ss'[|ss|..] == [];
    StepLive(ss, s, last, |ss|);
    StepLive(ss', s', last, |ss|);
    LessBefore(ss, ss', s, s', last);
  }

  /** Nothing real comes after `last`, unless it is deleted itself. */
  predicate AtEnd(r: Peeping) {
    r.last < |r.ss| && (r.ss[r.last] == Nop || NopsIn(r.ss, r.last + 1, |r.ss|))
  }

  lemma StopsAtEnd(ss: seq<Stmt>, last: nat, outUse: set<Atom>, gone: bool)
    requires last < |ss| && Turn(ss, last, outUse, gone).None?
    ensures AtEnd(Peeping(ss, last, gone))
  {
  }

  lemma {:induction false} LoopStopsAtEnd(ss: seq<Stmt>, last: nat, outUse: set<Atom>, gone: bool)
    requires last < |ss|
    ensures AtEnd(PeepFrom(ss, last, outUse, gone))
    decreases |ss| - last
  {
    match Turn(ss, last, outUse, gone)
    case None => StopsAtEnd(ss, last, outUse, gone);
    case Some(r) => LoopStopsAtEnd(r.ss, r.last, outUse, r.gone);
  }

  lemma TailLive(b: Block, last: nat, outUse: set<Atom>, cx: Option<Word>)
    requires b.s.Jmp? && last < |b.stmts| && (b.stmts[last] == Nop || NopsIn(b.stmts, last + 1, |b.stmts|))
    ensures var b' := PeepTail(b, last, outUse, cx);
            ReadsLess(b.stmts, b'.stmts, b.s, b'.s) && b'.s.Jmp?
  {
    var b' := PeepTail(b, last, outUse, cx);
    if b' != b {
      TailStepLive(b.stmts, b.s, b'.s, last);
    }
  }

  lemma EndLive(b: Block, r: Peeping, outUse: set<Atom>, ca: Option<Word>, cx: Option<Word>)
    requires b.s.Jmp? && r.last < |r.ss|
    ensures var b2 := PeepTail(b.(stmts := r.ss), r.last, outUse, cx);
            var b' := FoldConstant(FoldJset(b2), ca);
            b'.stmts == b2.stmts && b'.s == b2.s
  {
  }

  /** `opt_peep` makes no block read more. */
  lemma PeepLive(b: Block, outUse: set<Atom>, ca: Option<Word>, cx: Option<Word>)
    ensures var b' := PeepBlock(b, outUse, ca, cx);
            ReadsLess(b.stmts, b'.stmts, b.s, b'.s) && (b'.s.RetA? ==> b.s.RetA?)
  {
    if b.s.Jmp? && b.stmts != [] {
      var r := PeepFrom(b.stmts, 0, outUse, false);
      LoopLive(b.stmts, b.s, 0, outUse, false);
      LoopStopsAtEnd(b.stmts, 0, outUse, false);
      TailLive(b.(stmts := r.ss), r.last, outUse, cx);
      EndLive(b, r, outUse, ca, cx);
      var b' := PeepBlock(b, outUse, ca, cx);
      ReadsLessTwice(b.stmts, r.ss, b'.stmts, b.s, b.s, b'.s);
    }
  }

  lemma {:induction false} DeadBefore(ss: seq<Stmt>, s: Branch, i: nat, k: nat, a: Atom)
    requires i <= k <= |ss| && a !in LiveIn(ss[k..], s, {}) && forall j :: i <= j < k ==> Ignores(ss[j], a)
    ensures a !in LiveIn(ss[i..], s, {})
    decreases k - i
  {
    if i < k {
      DeadBefore(ss, s, i + 1, k, a);
      StepLive(ss, s, i, i + 1);
    }
  }

  lemma RedefinedIsDead(ss: seq<Stmt>, s: Branch, i: nat, a: Atom)
    requires RedefinedAt(ss, i, |ss|, a)
    ensures AtomDef(ss[i]) == Some(a) && a !in LiveIn(ss[i + 1..], s, {})
  {
    var k: nat :| OpenAt(ss, i, k, a) && k < |ss| && a !in AtomUse(ss[k]) && AtomDef(ss[k]) == Some(a);
    StepLive(ss, s, k, k + 1);
    DeadBefore(ss, s, i + 1, k, a);
  }

  lemma OpenIsDead(ss: seq<Stmt>, s: Branch, i: nat, a: Atom)
    requires OpenAt(ss, i, |ss|, a) && a !in BranchUse(s)
    ensures AtomDef(ss[i]) == Some(a) && a !in LiveIn(ss[i + 1..], s, {})
  {
    assert ss[|ss|..] == [];
    DeadBefore(ss, s, i + 1, |ss|, a);
  }

  /** What a dead store defines is not live after it. */
  lemma DeadIsDead(ss: seq<Stmt>, s: Branch, on: set<Atom>, i: nat)
    requires i < |ss| && DeadAt(ss, on, i) && BranchUse(s) <= on
    ensures AtomDef(ss[i]).Some? && AtomDef(ss[i]).value !in LiveIn(ss[i + 1..], s, {})
  {
    if Redefined(ss, i, |ss|) {
      var a: Atom :| RedefinedAt(ss, i, |ss|, a);
      RedefinedIsDead(ss, s, i, a);
    } else {
      var a: Atom :| OpenAt(ss, i, |ss|, a) && a !in on;
      OpenIsDead(ss, s, i, a);
    }
  }

  /** Deleting dead stores makes no block read more. */
  lemma {:induction false} CleanLive(ss: seq<Stmt>, ss': seq<Stmt>, s: Branch, on: set<Atom>, i: nat)
    requires i <= |ss| == |ss'| && BranchUse(s) <= on
    requires forall k :: 0 <= k < |ss| ==> ss'[k] == if DeadAt(ss, on, k) then Nop else ss[k]
    ensures LiveIn(ss'[i..], s, {}) <= LiveIn(ss[i..], s, {})
    decreases |ss| - i
  {
    if i < |ss| {
      CleanLive(ss, ss', s, on, i + 1);
      StepLive(ss, s, i, i + 1);
      StepLive(ss', s, i, i + 1);
      if DeadAt(ss, on, i) {
        DeadIsDead(ss, s, on, i);
      }
    }
  }

  lemma CleanReadsLess(ss: seq<Stmt>, ss': seq<Stmt>, s: Branch, on: set<Atom>)
    requires |ss| == |ss'| && BranchUse(s) <= on
    requires forall k :: 0 <= k < |ss| ==> ss'[k] == if DeadAt(ss, on, k) then Nop else ss[k]
    ensures ReadsLess(ss, ss', s, s)
  {
    CleanLive(ss, ss', s, on, 0);
    assert ss[0..] == ss && ss'[0..] == ss';
    forall j | 0 <= j < |ss| && ss'[j].LdInd?
      ensures ss[j].LdInd? && LiveIn(ss'[j + 1..], s, {}) <= LiveIn(ss[j + 1..], s, {})
    {
      CleanLive(ss, ss', s, on, j + 1);
    }
  }

  /** A block that the sweep finishes without emptying it reads less. */
  lemma FinishedReadsLess(b: Block, b': Block, outUse: AtomSet, ca: Option<Word>, cx: Option<Word>)
    requires Finished(b, b', false, outUse, ca, cx)
    ensures ReadsLess(b.stmts, b'.stmts, b.s, b'.s) && (b'.s.RetA? ==> b.s.RetA?)
  {
    var b2 := PeepBlock(b, outUse, ca, cx);
    PeepLive(b, outUse, ca, cx);
    CleanReadsLess(b2.stmts, b'.stmts, b2.s, outUse + BranchUse(b2.s));
    ReadsLessTwice(b.stmts, b2.stmts, b'.stmts, b.s, b2.s, b'.s);
  }

  /** A block that the sweep finishes without emptying it stays self-contained. */
  lemma FinishedClosed(b: Block, b': Block, outUse: AtomSet, ca: Option<Word>, cx: Option<Word>)
    requires Finished(b, b', false, outUse, ca, cx) && !b.s.RetA? && Closed(b.stmts, b.s, {})
    ensures !b'.s.RetA? && Closed(b'.stmts, b'.s, {})
  {
    FinishedReadsLess(b, b', outUse, ca, cx);
    ClosedIsLive(b.stmts, b.s, {});
    ClosedIsLive(b'.stmts, b'.s, {});
  }
}
