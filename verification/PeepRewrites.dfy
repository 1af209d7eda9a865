/** What `opt_peep` must rewrite, and to what. */
module PeepRewrites {
  import opened Collections
  import opened Machine
  import opened Words
  import opened Arithmetic
  import opened Atoms
  import opened Peephole

  /** Neighbours, with only deleted statements between them. */
  predicate Next(ss: seq<Stmt>, i: nat, j: nat) {
    i < j < |ss| && ss[i] != Nop && ss[j] != Nop && NopsIn(ss, i + 1, j)
  }

  /** A store and the reload of the same word, or a constant loaded and transferred to X. */
  predicate Reducible(s1: Stmt, s2: Stmt) {
    (s1.St? && s2.LdxMem? && s2.m == s1.m) || (s1.LdImm? && s2 == Tax)
  }

  /** Neighbours of which the first is before `last` are not reducible. */
  ghost predicate Reduced(ss: seq<Stmt>, last: nat) {
    forall i: nat, j: nat :: i < last && Next(ss, i, j) ==> !Reducible(ss[i], ss[j])
  }

  /** A folded sequence leaves the header length or the load as the next real statement. */
  lemma AfterFold(ss: seq<Stmt>, ldi: nat, next: nat, add: nat, tax: nat, ild: nat, i: nat, j: nat)
    requires IndexPattern(ss, ldi, next, add, tax, ild) && i < ldi < j
    requires Next(FoldIndex(ss, ldi, add, tax, ild), i, j)
    ensures !Reducible(FoldIndex(ss, ldi, add, tax, ild)[i], FoldIndex(ss, ldi, add, tax, ild)[j])
  {
    var ss' := FoldIndex(ss, ldi, add, tax, ild);
    FoldShape(ss, ldi, next, add, tax, ild);
    assert ss'[ild] != Nop && (next < add ==> ss'[next] != Nop);
    if next < add {
      assert j == next;
    } else {
      assert j == ild;
    }
  }

  /** The pair itself is not reducible once it has been looked at. */
  lemma PairDone(ss: seq<Stmt>, i: nat, next: nat, outUse: set<Atom>, gone: bool, j: nat)
    requires Next(ss, i, next) && Next(PairAt(ss, i, next, outUse, gone).ss, i, j)
    ensures !Reducible(PairAt(ss, i, next, outUse, gone).ss[i], PairAt(ss, i, next, outUse, gone).ss[j])
  {
    var ss' := PairAt(ss, i, next, outUse, gone).ss;
    if ss'[next] != Nop {
      assert j == next;
    }
  }

  lemma PairLeaves(ss: seq<Stmt>, i: nat, next: nat, outUse: set<Atom>, gone: bool)
    requires i < next < |ss| && ss[i] != Nop
    ensures var ss' := PairAt(ss, i, next, outUse, gone).ss;
            ss'[..i] == ss[..i] && (ss'[i] == ss[i] || ss'[i].LdxImm? || ss'[i] == Nop)
  {
  }

  lemma BeforePair(ss: seq<Stmt>, last: nat, i: nat, next: nat, outUse: set<Atom>, gone: bool, i': nat, j: nat)
    requires Reduced(ss, last) && i' < last <= i && Next(ss, i, next)
    requires Next(PairAt(ss, i, next, outUse, gone).ss, i', j)
    ensures !Reducible(PairAt(ss, i, next, outUse, gone).ss[i'], PairAt(ss, i, next, outUse, gone).ss[j])
  {
    var ss' := PairAt(ss, i, next, outUse, gone).ss;
    PairLeaves(ss, i, next, outUse, gone);
    forall k | 0 <= k < i ensures ss'[k] == ss[k] {
      assert ss'[..i][k] == ss[..i][k];
    }
    if j <= i {
      assert Next(ss, i', j);
    } else {
      assert ss'[i] == Nop;
      var r := SpotsAfter(ss, next);
      AfterFold(ss, i, next, r.add, r.tax, r.ild, i', j);
    }
  }

  lemma PairReduced(ss: seq<Stmt>, last: nat, i: nat, next: nat, outUse: set<Atom>, gone: bool)
    requires Reduced(ss, last) && last <= i && NopsIn(ss, last, i) && Next(ss, i, next)
    ensures Reduced(PairAt(ss, i, next, outUse, gone).ss, next)
  {
    var ss' := PairAt(ss, i, next, outUse, gone).ss;
    forall i': nat, j: nat | i' < next && Next(ss', i', j) ensures !Reducible(ss'[i'], ss'[j]) {
      if i' < last {
        BeforePair(ss, last, i, next, outUse, gone, i', j);
      } else {
        RealIsFirst(ss, last, i, next, outUse, gone, i');
        PairDone(ss, i, next, outUse, gone, j);
      }
    }
  }

  lemma RealIsFirst(ss: seq<Stmt>, last: nat, i: nat, next: nat, outUse: set<Atom>, gone: bool, k: nat)
    requires last <= i && NopsIn(ss, last, i) && Next(ss, i, next) && last <= k < next
    requires PairAt(ss, i, next, outUse, gone).ss[k] != Nop
    ensures k == i
  {
  }

  /** The loop leaves no store with a reload of the same word after it, and no constant loaded to be transferred. */
  lemma {:induction false} PeepReduced(ss: seq<Stmt>, last: nat, outUse: set<Atom>, gone: bool)
    requires last < |ss| && Reduced(ss, last)
    ensures var r := PeepFrom(ss, last, outUse, gone).ss; Reduced(r, |r|)
    decreases |ss| - last
  {
    var i := NextOp(ss, last);
    if i == |ss| || NextOp(ss, i + 1) == |ss| {
      LastOnes(ss, last, i);
    } else {
      var next := NextOp(ss, i + 1);
      PairReduced(ss, last, i, next, outUse, gone);
      PeepReduced(PairAt(ss, i, next, outUse, gone).ss, next, outUse, PairAt(ss, i, next, outUse, gone).gone);
    }
  }

  lemma LastOnes(ss: seq<Stmt>, last: nat, i: nat)
    requires Reduced(ss, last) && last <= i <= |ss| && NopsIn(ss, last, i)
    requires i == |ss| || NopsIn(ss, i + 1, |ss|)
    ensures Reduced(ss, |ss|)
  {
  }

  /** A constant index, in front of a header length or not, goes into the load, modulo 2^32, with X not wanted
      afterwards. */
  lemma IndexGoes(ss: seq<Stmt>, ldi: nat, next: nat, add: nat, tax: nat, ild: nat, outUse: set<Atom>, gone: bool)
    requires ldi < next <= add < tax < ild < |ss| && X_ATOM !in outUse
    requires ss[ldi].LdImm? && (next == add || ss[next].LdxMsh?) && ss[add] == AluX(Add) && ss[tax] == Tax
    requires ss[ild].LdInd? && NopsIn(ss, ldi + 1, next) && NopsIn(ss, next + 1, add) && NopsIn(ss, add + 1, tax)
    requires NopsIn(ss, tax + 1, ild)
    ensures var r := PairAt(ss, ldi, next, outUse, gone).ss;
            && r[ldi] == Nop && r[add] == Nop && r[tax] == Nop
            && r[ild].LdInd? && r[ild].size == ss[ild].size
            && Num(r[ild].k) == (Num(ss[ild].k) + Num(ss[ldi].k)) % 0x1_0000_0000
  {
    assert IndexPattern(ss, ldi, next, add, tax, ild);
    SpotsUnique(ss, ldi, next, add, tax, ild);
    OffsetRight(ss[ild].k, ss[ldi].k);
  }

  /** Arithmetic before an equality test, of a result nobody else wants, is deleted: a subtraction of a constant, of a
      known X, or of any X before a comparison with 0, and a mask before a comparison with 0. */
  lemma TailGoes(b: Block, last: nat, outUse: set<Atom>, cx: Option<Word>)
    requires last < |b.stmts| && b.s.Jmp? && b.s.jop.Jeq? && b.s.src.FromK? && A_ATOM !in outUse
    requires var s := b.stmts[last];
             || (s.AluK? && s.op.Sub?) || (s.AluX? && s.op.Sub? && (cx.Some? || b.s.k == 0))
             || (s.AluK? && s.op.And? && b.s.k == 0)
    ensures PeepTail(b, last, outUse, cx).stmts == b.stmts[last := Nop]
  {
  }

  /** A test of a constant A against a constant, and a test of no bits, go one way. */
  lemma TestsDecided(b: Block, outUse: set<Atom>, ca: Option<Word>, cx: Option<Word>)
    requires b.s.Jmp? && b.stmts != []
    ensures var b' := PeepBlock(b, outUse, ca, cx);
            && b'.s.Jmp?
            && (ca.Some? && b'.s.src.FromK? ==> b'.jt == b'.jf)
            && (b'.s.jop.Jset? && b'.s.src.FromK? && b'.s.k == 0 ==> b'.jt == b'.jf)
  {
  }
}
