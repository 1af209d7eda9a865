/** `opt_peep`: rewrites of adjacent statements and of the statement before the branch. */
module Peephole {
  import opened Collections
  import opened Machine
  import opened Atoms
  import opened Layout
  import opened DeadStores

  /** X is not read at the start of `ss` before it is written again. */
  predicate DeadX(ss: seq<Stmt>, s: Branch) {
    if ss == [] then X_ATOM !in BranchUse(s)
    else X_ATOM !in AtomUse(ss[0]) && (AtomDef(ss[0]) == Some(X_ATOM) || DeadX(ss[1..], s))
  }

  /** X is not read after any indexed load before it is written again. */
  predicate NoLateX(ss: seq<Stmt>, s: Branch) {
    forall j :: 0 <= j < |ss| && ss[j].LdInd? ==> DeadX(ss[j + 1..], s)
  }

  predicate WritesX(ss: seq<Stmt>) {
    exists i :: 0 <= i < |ss| && AtomDef(ss[i]) == Some(X_ATOM)
  }

  /** From position `i` on, X is not read after the load of a constant-index sequence before it is written
      again; or the sequence is left alone because X is live out. */
  ghost predicate FreshX(ss: seq<Stmt>, s: Branch, outUse: set<Atom>, i: nat) {
    X_ATOM in outUse ||
    forall ldi: nat, next: nat, add: nat, tax: nat, ild: nat ::
      i <= ldi && IndexPattern(ss, ldi, next, add, tax, ild) ==> DeadX(ss[ild + 1..], s)
  }

  predicate NopsIn(ss: seq<Stmt>, i: nat, j: nat) {
    forall k :: i <= k < j && k < |ss| ==> ss[k] == Nop
  }

  /** The first real statement at or after `i`, or the length. */
  function NextOp(ss: seq<Stmt>, i: nat): (j: nat)
    requires i <= |ss|
    ensures i <= j <= |ss| && NopsIn(ss, i, j) && (j < |ss| ==> ss[j] != Nop)
    decreases |ss| - i
  {
    if i == |ss| || ss[i] != Nop then i else NextOp(ss, i + 1)
  }

  lemma {:induction false} NextOpIs(ss: seq<Stmt>, i: nat, j: nat)
    requires i <= j <= |ss| && NopsIn(ss, i, j) && (j < |ss| ==> ss[j] != Nop)
    ensures NextOp(ss, i) == j
    decreases j - i
  {
    if i < j {
      NextOpIs(ss, i + 1, j);
    }
  }

  /** `this_op`. */
  method ThisOp(ss: seq<Stmt>, i: nat) returns (j: nat)
    requires i <= |ss|
    ensures i <= j <= |ss| && NopsIn(ss, i, j) && (j < |ss| ==> ss[j] != Nop)
    ensures j == NextOp(ss, i)
  {
    j := i;
    while j < |ss| && ss[j] == Nop
      invariant i <= j <= |ss| && NopsIn(ss, i, j)
    {
      j := j + 1;
    }
    NextOpIs(ss, i, j);
  }

  /** Executing from position `i`: skip deleted statements, then one statement and the rest after `j`. */
  lemma {:induction false} SkipNops(ss: seq<Stmt>, i: nat, j: nat, st: State, p: Packet)
    requires i <= j <= |ss| && NopsIn(ss, i, j)
    ensures ExecAll(ss[i..], st, p) == ExecAll(ss[j..], st, p)
    decreases j - i
  {
    if i < j {
      assert ss[i..][0] == Nop && ss[i..][1..] == ss[i + 1..];
      SkipNops(ss, i + 1, j, st, p);
    }
  }

  lemma StepTo(ss: seq<Stmt>, i: nat, j: nat, st: State, p: Packet)
    requires i < j <= |ss| && NopsIn(ss, i + 1, j)
    ensures ExecAll(ss[i..], st, p) ==
            match Exec(ss[i], st, p) { case None => None case Some(t) => ExecAll(ss[j..], t, p) }
  {
    assert ss[i..][0] == ss[i] && ss[i..][1..] == ss[i + 1..];
    match Exec(ss[i], st, p)
    case None =>
    case Some(t) => SkipNops(ss, i + 1, j, t, p);
  }

  lemma FromPrefix(ss: seq<Stmt>, i: nat, st: State, p: Packet)
    requires i <= |ss|
    ensures ExecAll(ss, st, p) ==
              match ExecAll(ss[..i], st, p) { case None => None case Some(t) => ExecAll(ss[i..], t, p) }
  {
    assert ss == ss[..i] + ss[i..];
    ExecAllAppend(ss[..i], ss[i..], st, p);
  }

  function Exec2(s1: Stmt, s2: Stmt, st: State, p: Packet): Option<State> {
    match Exec(s1, st, p) case None => None case Some(t) => Exec(s2, t, p)
  }

  /** Replacing two neighbours by two that do the same changes nothing. */
  lemma PairStep(ss: seq<Stmt>, i: nat, j: nat, s1: Stmt, s2: Stmt, st: State, p: Packet)
    requires i < j < |ss| && NopsIn(ss, i + 1, j)
    requires forall t: State :: Exec2(s1, s2, t, p) == Exec2(ss[i], ss[j], t, p)
    ensures ExecAll(ss[i := s1][j := s2], st, p) == ExecAll(ss, st, p)
  {
    var ss' := ss[i := s1][j := s2];
    FromPrefix(ss, i, st, p);
    FromPrefix(ss', i, st, p);
    assert ss'[..i] == ss[..i] && ss'[j + 1..] == ss[j + 1..];
    if ExecAll(ss[..i], st, p).Some? {
      var t := ExecAll(ss[..i], st, p).value;
      assert Exec2(s1, s2, t, p) == Exec2(ss[i], ss[j], t, p);
      TwoSteps(ss, i, j, t, p);
      TwoSteps(ss', i, j, t, p);
    }
  }

  lemma TwoSteps(ss: seq<Stmt>, i: nat, j: nat, st: State, p: Packet)
    requires i < j < |ss| && NopsIn(ss, i + 1, j)
    ensures ExecAll(ss[i..], st, p) ==
            match Exec2(ss[i], ss[j], st, p) { case None => None case Some(t) => ExecAll(ss[j + 1..], t, p) }
  {
    StepTo(ss, i, j, st, p);
    match Exec(ss[i], st, p)
    case None =>
    case Some(t) => StepTo(ss, j, j + 1, t, p);
  }

  /** st M[k]; ldx M[k]  does what  st M[k]; tax  does. */
  lemma StoreReload(ss: seq<Stmt>, i: nat, j: nat, st: State, p: Packet)
    requires i < j < |ss| && NopsIn(ss, i + 1, j) && ss[i].St? && ss[j] == LdxMem(ss[i].m)
    ensures ExecAll(ss[j := Tax], st, p) == ExecAll(ss, st, p)
  {
    assert ss[i := ss[i]][j := Tax] == ss[j := Tax];
    PairStep(ss, i, j, ss[i], Tax, st, p);
  }

  /** ld #k; tax  does what  ldx #k; txa  does. */
  lemma LoadTransfer(ss: seq<Stmt>, i: nat, j: nat, st: State, p: Packet)
    requires i < j < |ss| && NopsIn(ss, i + 1, j) && ss[i].LdImm? && ss[j] == Tax
    ensures ExecAll(ss[i := LdxImm(ss[i].k)][j := Txa], st, p) == ExecAll(ss, st, p)
  {
    forall t: State ensures Exec2(LdxImm(ss[i].k), Txa, t, p) == Exec2(ss[i], ss[j], t, p) {
      assert t[X_ATOM := ss[i].k][A_ATOM := ss[i].k] == t[A_ATOM := ss[i].k][X_ATOM := ss[i].k];
    }
    PairStep(ss, i, j, LdxImm(ss[i].k), Txa, st, p);
  }

  /** States that differ only in X end equal once X is written, and differ only in X anyway. */
  lemma {:induction false} DeadXRun(ss: seq<Stmt>, s: Branch, st1: State, st2: State, p: Packet)
    requires DeadX(ss, s) && AgreeExcept(st1, st2, {X_ATOM}) && ExecAll(ss, st1, p).Some?
    ensures ExecAll(ss, st2, p).Some?
    ensures AgreeExcept(ExecAll(ss, st1, p).value, ExecAll(ss, st2, p).value, {X_ATOM})
    ensures WritesX(ss) ==> ExecAll(ss, st2, p) == ExecAll(ss, st1, p)
  {
    if ss != [] {
      ExecFrame(ss[0], st1, st2, p);
      var t1, t2 := Exec(ss[0], st1, p).value, Exec(ss[0], st2, p).value;
      if AtomDef(ss[0]) == Some(X_ATOM) {
        assert t1 == t2;
      } else {
        DeadXRun(ss[1..], s, t1, t2, p);
        if WritesX(ss) {
          var i :| 0 <= i < |ss| && AtomDef(ss[i]) == Some(X_ATOM);
          assert ss[1..][i - 1] == ss[i];
          assert WritesX(ss[1..]);
        }
      }
    }
  }

  /** The positions of  ldi; [ldxms]; addx; tax; ild  with only deleted statements between them. */
  predicate IndexPattern(ss: seq<Stmt>, ldi: nat, next: nat, add: nat, tax: nat, ild: nat) {
    && ldi < next <= add < tax < ild < |ss|
    && ss[ldi].LdImm? && (if ss[next].LdxMsh? then next < add else add == next)
    && ss[add] == AluX(Add) && ss[tax] == Tax && ss[ild].LdInd?
    && NopsIn(ss, ldi + 1, next) && NopsIn(ss, next + 1, add) && NopsIn(ss, add + 1, tax) && NopsIn(ss, tax + 1, ild)
  }

  function FoldIndex(ss: seq<Stmt>, ldi: nat, add: nat, tax: nat, ild: nat): (r: seq<Stmt>)
    requires ldi < |ss| && add < |ss| && tax < |ss| && ild < |ss| && ss[ldi].LdImm? && ss[ild].LdInd?
    ensures |r| == |ss|
  {
    ss[ild := LdInd(ss[ild].size, Offset(ss[ild].k, ss[ldi].k))][ldi := Nop][add := Nop][tax := Nop]
  }

  lemma SumsAgree(x: Word, k: Word, k2: Word)
    ensures Offset(k + x, k2) == Offset(x, k2 + k)
  {
  }

  lemma NamedSumsAgree(x: Word, k: Word, k2: Word, kx: Word, kk: Word)
    requires kx == k + x && kk == k2 + k
    ensures Offset(kx, k2) == Offset(x, kk)
  {
    SumsAgree(x, k, k2);
  }

  lemma OffsetsAdd(x: Word, k: Word, k2: Word)
    ensures Offset(Offset(k, x), k2) == Offset(x, Offset(k2, k))
  {
    NamedSumsAgree(x, k, k2, Offset(k, x), Offset(k2, k));
  }

  function Load(rest: seq<Stmt>, st: State, w: Option<Word>, p: Packet): Option<State> {
    match w case None => None case Some(w) => ExecAll(rest, st[A_ATOM := w], p)
  }

  lemma OldLoad(ss: seq<Stmt>, add: nat, tax: nat, ild: nat, st: State, p: Packet)
    requires add < tax < ild < |ss| && ss[add] == AluX(Add) && ss[tax] == Tax && ss[ild].LdInd?
    requires NopsIn(ss, add + 1, tax) && NopsIn(ss, tax + 1, ild)
    ensures var x := Offset(st[A_ATOM], st[X_ATOM]);
            ExecAll(ss[add..], st, p) ==
            Load(ss[ild + 1..], st[X_ATOM := x], p.load(ss[ild].size, Offset(x, ss[ild].k)), p)
  {
    var x := Offset(st[A_ATOM], st[X_ATOM]);
    var t1, t2 := st[A_ATOM := x], st[A_ATOM := x][X_ATOM := x];
    StepTo(ss, add, tax, st, p);
    AddIsOffset(st, p);
    StepTo(ss, tax, ild, t1, p);
    StepTo(ss, ild, ild + 1, t2, p);
    match p.load(ss[ild].size, Offset(x, ss[ild].k))
    case None =>
    case Some(w) => assert t2[A_ATOM := w] == st[X_ATOM := x][A_ATOM := w];
  }

  lemma NewLoad(ss: seq<Stmt>, add: nat, ild: nat, st: State, p: Packet)
    requires add < ild < |ss| && ss[ild].LdInd? && NopsIn(ss, add, ild)
    ensures ExecAll(ss[add..], st, p) == Load(ss[ild + 1..], st, p.load(ss[ild].size, Offset(st[X_ATOM], ss[ild].k)), p)
  {
    SkipNops(ss, add, ild, st, p);
    StepTo(ss, ild, ild + 1, st, p);
  }

  predicate Folded(ss: seq<Stmt>, ss': seq<Stmt>, ldi: nat, next: nat, add: nat, ild: nat)
    requires ldi < next <= add < ild < |ss| && ss[ldi].LdImm? && ss[ild].LdInd?
  {
    && |ss'| == |ss| && ss'[ild + 1..] == ss[ild + 1..]
    && NopsIn(ss', ldi, next) && NopsIn(ss', add, ild)
    && (next < add ==> ss'[next] == ss[next] && NopsIn(ss', next + 1, add))
    && ss'[ild] == LdInd(ss[ild].size, Offset(ss[ild].k, ss[ldi].k))
  }

  lemma FoldShape(ss: seq<Stmt>, ldi: nat, next: nat, add: nat, tax: nat, ild: nat)
    requires IndexPattern(ss, ldi, next, add, tax, ild)
    ensures Folded(ss, FoldIndex(ss, ldi, add, tax, ild), ldi, next, add, ild)
  {
  }

  lemma LoadsAgree(rest: seq<Stmt>, s: Branch, st: State, st': State, x: Word, w: Option<Word>, p: Packet)
    requires DeadX(rest, s) && AgreeExcept(st, st', {A_ATOM}) && Load(rest, st[X_ATOM := x], w, p).Some?
    ensures Load(rest, st', w, p).Some?
    ensures AgreeExcept(Load(rest, st[X_ATOM := x], w, p).value, Load(rest, st', w, p).value, {X_ATOM})
    ensures WritesX(rest) ==> Load(rest, st', w, p) == Load(rest, st[X_ATOM := x], w, p)
  {
    DeadXRun(rest, s, st[X_ATOM := x][A_ATOM := w.value], st'[A_ATOM := w.value], p);
  }

  /** What is kept when positions of a statement list are rewritten: all but X, and X too if `all`. */
  predicate SameRun(r: Option<State>, r': Option<State>, all: bool) {
    r.Some? ==> r'.Some? && AgreeExcept(r.value, r'.value, {X_ATOM}) && (all ==> r'.value == r.value)
  }

  /** From the add on the load is from where the rewritten load looks, and X is moved. */
  lemma MovedLoad(ss: seq<Stmt>, add: nat, tax: nat, ild: nat, st: State, k': Word, p: Packet) returns (x: Word)
    requires add < tax < ild < |ss| && ss[add] == AluX(Add) && ss[tax] == Tax && ss[ild].LdInd?
    requires NopsIn(ss, add + 1, tax) && NopsIn(ss, tax + 1, ild) && k' == Offset(ss[ild].k, st[A_ATOM])
    ensures ExecAll(ss[add..], st, p) ==
              Load(ss[ild + 1..], st[X_ATOM := x], p.load(ss[ild].size, Offset(st[X_ATOM], k')), p)
  {
    x := Offset(st[A_ATOM], st[X_ATOM]);
    OldLoad(ss, add, tax, ild, st, p);
    OffsetsAdd(st[X_ATOM], st[A_ATOM], ss[ild].k);
  }

  lemma SameLoads(r: Option<State>, r': Option<State>, rest: seq<Stmt>, s: Branch, st: State, st': State, x: Word,
                  w: Option<Word>, p: Packet)
    requires r == Load(rest, st[X_ATOM := x], w, p) && r' == Load(rest, st', w, p)
    requires DeadX(rest, s) && AgreeExcept(st, st', {A_ATOM})
    ensures SameRun(r, r', WritesX(rest))
  {
    if r.Some? {
      LoadsAgree(rest, s, st, st', x, w, p);
    }
  }

  /** From the add on: the same load, and X left alone instead of moved. */
  lemma AddTaxLoad(ss: seq<Stmt>, ss': seq<Stmt>, add: nat, tax: nat, ild: nat, s: Branch, k: Word, st: State,
                   st': State, p: Packet)
    requires add < tax < ild < |ss| == |ss'| && ss[add] == AluX(Add) && ss[tax] == Tax && ss[ild].LdInd?
    requires NopsIn(ss, add + 1, tax) && NopsIn(ss, tax + 1, ild) && NopsIn(ss', add, ild)
    requires ss'[ild] == LdInd(ss[ild].size, Offset(ss[ild].k, k)) && ss'[ild + 1..] == ss[ild + 1..]
    requires DeadX(ss[ild + 1..], s) && AgreeExcept(st, st', {A_ATOM}) && st[A_ATOM] == k
    ensures SameRun(ExecAll(ss[add..], st, p), ExecAll(ss'[add..], st', p), WritesX(ss[ild + 1..]))
  {
    var k' := ss'[ild].k;
    var x := MovedLoad(ss, add, tax, ild, st, k', p);
    NewLoad(ss', add, ild, st', p);
    var w := p.load(ss[ild].size, Offset(st[X_ATOM], k'));
    SameLoads(ExecAll(ss[add..], st, p), ExecAll(ss'[add..], st', p), ss[ild + 1..], s, st, st', x, w, p);
  }

  lemma FromLdi(ss: seq<Stmt>, ss': seq<Stmt>, ldi: nat, next: nat, add: nat, tax: nat, ild: nat, s: Branch,
                t: State, p: Packet)
    requires IndexPattern(ss, ldi, next, add, tax, ild) && DeadX(ss[ild + 1..], s)
    requires Folded(ss, ss', ldi, next, add, ild)
    ensures SameRun(ExecAll(ss[ldi..], t, p), ExecAll(ss'[ldi..], t, p), WritesX(ss[ild + 1..]))
  {
    var t1 := t[A_ATOM := ss[ldi].k];
    StepTo(ss, ldi, next, t, p);
    SkipNops(ss', ldi, next, t, p);
    if next < add {
      StepTo(ss, next, add, t1, p);
      StepTo(ss', next, add, t, p);
      ExecFrame(ss[next], t1, t, p);
      if Exec(ss[next], t1, p).Some? {
        AddTaxLoad(ss, ss', add, tax, ild, s, ss[ldi].k, Exec(ss[next], t1, p).value, Exec(ss[next], t, p).value, p);
      }
    } else {
      AddTaxLoad(ss, ss', add, tax, ild, s, ss[ldi].k, t1, t, p);
    }
  }

  /** The whole rewrite: nothing changes but X, and not even X if it is written again. */
  lemma IndexFolded(ss: seq<Stmt>, ldi: nat, next: nat, add: nat, tax: nat, ild: nat, s: Branch, st: State, p: Packet)
    requires IndexPattern(ss, ldi, next, add, tax, ild) && DeadX(ss[ild + 1..], s)
    ensures SameRun(ExecAll(ss, st, p), ExecAll(FoldIndex(ss, ldi, add, tax, ild), st, p), WritesX(ss[ild + 1..]))
  {
    var ss' := FoldIndex(ss, ldi, add, tax, ild);
    FromPrefix(ss, ldi, st, p);
    FromPrefix(ss', ldi, st, p);
    assert ss'[..ldi] == ss[..ldi];
    FoldShape(ss, ldi, next, add, tax, ild);
    if ExecAll(ss[..ldi], st, p).Some? {
      FromLdi(ss, ss', ldi, next, add, tax, ild, s, ExecAll(ss[..ldi], st, p).value, p);
    }
  }

  /** Whenever `ss0` runs to the end so does `ss`, with all atoms but X the same, and X too unless `gone`. */
  ghost predicate Kept(ss0: seq<Stmt>, ss: seq<Stmt>, gone: bool) {
    forall st: State, p: Packet :: SameRun(ExecAll(ss0, st, p), ExecAll(ss, st, p), !gone)
  }

  lemma KeptTrans(s0: seq<Stmt>, s1: seq<Stmt>, s2: seq<Stmt>, gone: bool, gone': bool)
    requires Kept(s0, s1, gone) && Kept(s1, s2, gone')
    ensures Kept(s0, s2, gone || gone')
  {
    forall st: State, p: Packet ensures SameRun(ExecAll(s0, st, p), ExecAll(s2, st, p), !(gone || gone')) {
      assert SameRun(ExecAll(s0, st, p), ExecAll(s1, st, p), !gone);
      assert SameRun(ExecAll(s1, st, p), ExecAll(s2, st, p), !gone');
    }
  }

  /** Nothing from position `i` on copies X or computes with it, and nothing after the block wants it. */
  predicate Quiet(ss: seq<Stmt>, i: nat, s: Branch, outUse: set<Atom>) {
    && X_ATOM !in outUse && X_ATOM !in BranchUse(s)
    && forall j :: i <= j < |ss| ==> ss[j].LdInd? || ss[j].LdxMsh? || Ignores(ss[j], X_ATOM)
  }

  predicate IsAlu(s: Stmt) { s.AluK? || s.AluX? }

  /** Position `j` holds the last real statement, an ALU operation. */
  predicate AluLast(ss: seq<Stmt>, j: nat) {
    j < |ss| && IsAlu(ss[j]) && NopsIn(ss, j + 1, |ss|)
  }

  lemma {:induction false} DeadIgnored(ss: seq<Stmt>, s: Branch)
    requires DeadX(ss, s) && !WritesX(ss)
    ensures X_ATOM !in BranchUse(s) && forall j :: 0 <= j < |ss| ==> Ignores(ss[j], X_ATOM)
  {
    if ss != [] {
      assert AtomDef(ss[0]) != Some(X_ATOM);
      forall i | 0 <= i < |ss[1..]| ensures AtomDef(ss[1..][i]) != Some(X_ATOM) {
        assert ss[1..][i] == ss[i + 1];
      }
      DeadIgnored(ss[1..], s);
      forall j | 0 <= j < |ss| ensures Ignores(ss[j], X_ATOM) {
        assert j > 0 ==> ss[j] == ss[1..][j - 1];
      }
    }
  }

  /** A constant-index sequence further on in the rewritten block was one before. */
  lemma PatternBefore(ss: seq<Stmt>, ss': seq<Stmt>, from: nat, ldi: nat, next: nat, add: nat, tax: nat, ild: nat)
    requires |ss'| == |ss| && from < ldi && IndexPattern(ss', ldi, next, add, tax, ild)
    requires forall k :: from < k < |ss| ==> ss'[k] == ss[k]
    ensures IndexPattern(ss, ldi, next, add, tax, ild) && ss'[ild + 1..] == ss[ild + 1..]
  {
  }

  /** Folding an index leaves the rest of the block ready for the next step. */
  lemma FoldLeaves(ss: seq<Stmt>, ldi: nat, next: nat, add: nat, tax: nat, ild: nat, s: Branch, outUse: set<Atom>)
    requires IndexPattern(ss, ldi, next, add, tax, ild) && FreshX(ss, s, outUse, ldi) && X_ATOM !in outUse
    ensures var ss' := FoldIndex(ss, ldi, add, tax, ild);
            && DeadX(ss[ild + 1..], s) && FreshX(ss', s, outUse, next)
            && (!WritesX(ss[ild + 1..]) ==> Quiet(ss', next, s, outUse))
  {
    var ss' := FoldIndex(ss, ldi, add, tax, ild);
    forall ldi': nat, next': nat, add': nat, tax': nat, ild': nat
      | next <= ldi' && IndexPattern(ss', ldi', next', add', tax', ild')
      ensures DeadX(ss'[ild' + 1..], s)
    {
      assert ldi' > ild;
      PatternBefore(ss, ss', ild, ldi', next', add', tax', ild');
    }
    if !WritesX(ss[ild + 1..]) {
      DeadIgnored(ss[ild + 1..], s);
      forall j | next <= j < |ss'| ensures ss'[j].LdInd? || ss'[j].LdxMsh? || Ignores(ss'[j], X_ATOM) {
        assert j > ild ==> ss'[j] == ss[ild + 1..][j - ild - 1];
      }
    }
  }

  /** Arithmetic that ends the block is not part of the sequence. */
  lemma FoldSparesLast(ss: seq<Stmt>, ldi: nat, next: nat, add: nat, tax: nat, ild: nat)
    requires IndexPattern(ss, ldi, next, add, tax, ild)
    ensures var ss' := FoldIndex(ss, ldi, add, tax, ild);
            && NopsStay(ss, ss') && ss'[ild].LdInd? && ild > next
            && forall j: nat :: AluLast(ss, j) ==> ss'[j] == ss[j]
  {
    var ss' := FoldIndex(ss, ldi, add, tax, ild);
    forall j: nat | AluLast(ss, j) ensures ss'[j] == ss[j] {
      assert ss[ild] != Nop;
      assert j > ild;
    }
  }

  lemma FoldAluLast(ss: seq<Stmt>, ldi: nat, next: nat, add: nat, tax: nat, ild: nat, j: nat)
    requires IndexPattern(ss, ldi, next, add, tax, ild) && AluLast(FoldIndex(ss, ldi, add, tax, ild), j)
    ensures AluLast(ss, j) && ss[j] == FoldIndex(ss, ldi, add, tax, ild)[j]
  {
    var ss' := FoldIndex(ss, ldi, add, tax, ild);
    assert ss'[ild].LdInd?;
    assert j > ild;
    forall k | j + 1 <= k < |ss| ensures ss[k] == Nop {
      assert ss'[k] == ss[k];
    }
  }

  /** Where  addx; tax; ild  would have to be after a constant load and `next`. */
  datatype Spots = Spots(add: nat, tax: nat, ild: nat)

  function SpotsAfter(ss: seq<Stmt>, next: nat): (r: Spots)
    requires next < |ss|
    ensures next <= r.add <= r.tax <= r.ild <= |ss|
  {
    var add := if ss[next].LdxMsh? then NextOp(ss, next + 1) else next;
    var tax := if add == |ss| then add else NextOp(ss, add + 1);
    var ild := if tax == |ss| then tax else NextOp(ss, tax + 1);
    Spots(add, tax, ild)
  }

  /** The sequence can be in one place only. */
  lemma SpotsUnique(ss: seq<Stmt>, ldi: nat, next: nat, add: nat, tax: nat, ild: nat)
    requires IndexPattern(ss, ldi, next, add, tax, ild)
    ensures SpotsAfter(ss, next) == Spots(add, tax, ild)
  {
    if next < add {
      NextOpIs(ss, next + 1, add);
    }
    NextOpIs(ss, add + 1, tax);
    NextOpIs(ss, tax + 1, ild);
  }

  /** The search for  [ldxms]; addx; tax; ild  after a constant load at `ldi`. */
  method FindIndex(ss: seq<Stmt>, ldi: nat, next: nat) returns (found: bool, add: nat, tax: nat, ild: nat)
    requires ldi < next < |ss| && ss[ldi].LdImm? && ss[next] != Nop && NopsIn(ss, ldi + 1, next)
    ensures found ==> IndexPattern(ss, ldi, next, add, tax, ild) && SpotsAfter(ss, next) == Spots(add, tax, ild)
    ensures !found ==> forall add, tax, ild :: !IndexPattern(ss, ldi, next, add, tax, ild)
  {
    found, add, tax, ild := false, next, next, next;
    if ss[next].LdxMsh? {
      add := ThisOp(ss, next + 1);
    }
    if add == |ss| || ss[add] != AluX(Add) {
      return;
    }
    tax := ThisOp(ss, add + 1);
    if tax == |ss| || ss[tax] != Tax {
      return;
    }
    ild := ThisOp(ss, tax + 1);
    if ild == |ss| || !ss[ild].LdInd? {
      return;
    }
    found := true;
    SpotsUnique(ss, ldi, next, add, tax, ild);
  }

  /** Statements rewritten so far, the statement stood at, and whether X has been given up for good. */
  datatype Peeping = Peeping(ss: seq<Stmt>, last: nat, gone: bool)

  /** The rewrite made at `i` and `next`. */
  function PairAt(ss: seq<Stmt>, i: nat, next: nat, outUse: set<Atom>, gone: bool): (r: Peeping)
    requires i < next < |ss|
    ensures |r.ss| == |ss| && r.last == next
  {
    if ss[i].St? && ss[next] == LdxMem(ss[i].m) then Peeping(ss[next := Tax], next, gone)
    else if ss[i].LdImm? && ss[next].Tax? then Peeping(ss[i := LdxImm(ss[i].k)][next := Txa], next, gone)
    else if !ss[i].LdImm? || X_ATOM in outUse then Peeping(ss, next, gone)
    else
      var r := SpotsAfter(ss, next);
      if IndexPattern(ss, i, next, r.add, r.tax, r.ild) then
        Peeping(FoldIndex(ss, i, r.add, r.tax, r.ild), next, gone || !WritesX(ss[r.ild + 1..]))
      else Peeping(ss, next, gone)
  }

  /** One turn of the loop, unless it stops. */
  function Turn(ss: seq<Stmt>, last: nat, outUse: set<Atom>, gone: bool): (r: Option<Peeping>)
    requires last < |ss|
    ensures r.Some? ==> |r.value.ss| == |ss| && last < r.value.last < |ss|
  {
    var i := NextOp(ss, last);
    if i == |ss| || NextOp(ss, i + 1) == |ss| then None else Some(PairAt(ss, i, NextOp(ss, i + 1), outUse, gone))
  }

  /** The loop from `last` on. */
  function PeepFrom(ss: seq<Stmt>, last: nat, outUse: set<Atom>, gone: bool): (r: Peeping)
    requires last < |ss|
    ensures |r.ss| == |ss| && r.last < |ss|
    decreases |ss| - last
  {
    match Turn(ss, last, outUse, gone)
    case None => Peeping(ss, last, gone)
    case Some(r) => PeepFrom(r.ss, r.last, outUse, r.gone)
  }

  /** What one turn of the loop leaves for the next: statements deleted stay deleted, arithmetic that ends
      the block is untouched, and `next` is real or an indexed load follows. */
  ghost predicate Orderly(ss: seq<Stmt>, ss': seq<Stmt>, next: nat) {
    && NopsStay(ss, ss') && next < |ss'|
    && (ss'[next] != Nop || exists k :: next < k < |ss'| && ss'[k].LdInd?)
    && (forall j: nat :: AluLast(ss, j) ==> ss'[j] == ss[j])
    && forall j: nat :: AluLast(ss', j) ==> AluLast(ss, j) && ss[j] == ss'[j]
  }

  /** One turn of the loop: the rewrites of the real statement at `i` and its successor `next`.  If X is
      `clear` they keep everything but a dead X. */
  method PeepAt(ss: seq<Stmt>, i: nat, next: nat, s: Branch, outUse: set<Atom>, ghost clear: bool, ghost gone: bool)
    returns (ss': seq<Stmt>, ghost gone': bool)
    requires i < next < |ss| && ss[i] != Nop && ss[next] != Nop && NopsIn(ss, i + 1, next)
    requires clear ==> FreshX(ss, s, outUse, i) && (gone ==> Quiet(ss, i, s, outUse))
    ensures Orderly(ss, ss', next) && Peeping(ss', next, gone') == PairAt(ss, i, next, outUse, gone)
    ensures clear ==> FreshX(ss', s, outUse, next) && (gone' ==> Quiet(ss', next, s, outUse))
    ensures clear ==> Kept(ss, ss', gone') && (gone ==> gone')
  {
    ss', gone' := ss, gone;
    if ss[i].St? && ss[next].LdxMem? && ss[i].m == ss[next].m {
      ss' := ss[next := Tax];
      RewriteLeaves(ss, ss', s, outUse, i, next);
      forall st: State, p: Packet ensures SameRun(ExecAll(ss, st, p), ExecAll(ss', st, p), true) {
        StoreReload(ss, i, next, st, p);
      }
    } else if ss[i].LdImm? && ss[next].Tax? {
      ss' := ss[i := LdxImm(ss[i].k)][next := Txa];
      RewriteLeaves(ss, ss', s, outUse, i, next);
      forall st: State, p: Packet ensures SameRun(ExecAll(ss, st, p), ExecAll(ss', st, p), true) {
        LoadTransfer(ss, i, next, st, p);
      }
    } else if ss[i].LdImm? && X_ATOM !in outUse {
      ss', gone' := IndexAt(ss, i, next, s, outUse, clear, gone);
    }
  }

  /** The rewrite of a constant index, if there is one. */
  method IndexAt(ss: seq<Stmt>, i: nat, next: nat, s: Branch, outUse: set<Atom>, ghost clear: bool, ghost gone: bool)
    returns (ss': seq<Stmt>, ghost gone': bool)
    requires i < next < |ss| && ss[i].LdImm? && ss[next] != Nop && !ss[next].Tax? && NopsIn(ss, i + 1, next)
    requires X_ATOM !in outUse && (clear ==> FreshX(ss, s, outUse, i) && (gone ==> Quiet(ss, i, s, outUse)))
    ensures Orderly(ss, ss', next) && Peeping(ss', next, gone') == PairAt(ss, i, next, outUse, gone)
    ensures clear ==> FreshX(ss', s, outUse, next) && (gone' ==> Quiet(ss', next, s, outUse))
    ensures clear ==> Kept(ss, ss', gone') && (gone ==> gone')
  {
    ss', gone' := ss, gone;
    var found, add, tax, ild := FindIndex(ss, i, next);
    if found {
      ss' := FoldIndex(ss, i, add, tax, ild);
      FoldOrderly(ss, i, next, add, tax, ild);
      gone' := gone || !WritesX(ss[ild + 1..]);
      FoldKeeps(ss, i, next, add, tax, ild, s, outUse, clear, gone);
    }
  }

  lemma FoldOrderly(ss: seq<Stmt>, ldi: nat, next: nat, add: nat, tax: nat, ild: nat)
    requires IndexPattern(ss, ldi, next, add, tax, ild)
    ensures Orderly(ss, FoldIndex(ss, ldi, add, tax, ild), next)
  {
    var ss' := FoldIndex(ss, ldi, add, tax, ild);
    FoldSparesLast(ss, ldi, next, add, tax, ild);
    forall j: nat | AluLast(ss', j) ensures AluLast(ss, j) && ss[j] == ss'[j] {
      FoldAluLast(ss, ldi, next, add, tax, ild, j);
    }
  }

  lemma FoldKeeps(ss: seq<Stmt>, ldi: nat, next: nat, add: nat, tax: nat, ild: nat, s: Branch, outUse: set<Atom>,
                  clear: bool, gone: bool)
    requires IndexPattern(ss, ldi, next, add, tax, ild) && X_ATOM !in outUse
    requires clear ==> FreshX(ss, s, outUse, ldi) && (gone ==> Quiet(ss, ldi, s, outUse))
    ensures var ss', gone' := FoldIndex(ss, ldi, add, tax, ild), gone || !WritesX(ss[ild + 1..]);
            clear ==> FreshX(ss', s, outUse, next) && (gone' ==> Quiet(ss', next, s, outUse)) && Kept(ss, ss', gone')
  {
    if clear {
      var ss' := FoldIndex(ss, ldi, add, tax, ild);
      FoldLeaves(ss, ldi, next, add, tax, ild, s, outUse);
      forall st: State, p: Packet ensures SameRun(ExecAll(ss, st, p), ExecAll(ss', st, p), WritesX(ss[ild + 1..])) {
        IndexFolded(ss, ldi, next, add, tax, ild, s, st, p);
      }
    }
  }

  lemma RewriteLeaves(ss: seq<Stmt>, ss': seq<Stmt>, s: Branch, outUse: set<Atom>, i: nat, next: nat)
    requires i < next < |ss| == |ss'| && NopsIn(ss, i + 1, next) && ss[i] != Nop && ss[next] != Nop && !IsAlu(ss[next])
    requires ss'[next] in {Tax, Txa} && (forall k :: 0 <= k < |ss| && k != i && k != next ==> ss'[k] == ss[k])
    requires !IsAlu(ss[i]) && !IsAlu(ss'[i])
    ensures Orderly(ss, ss', next)
    ensures FreshX(ss, s, outUse, i) ==> FreshX(ss', s, outUse, next)
  {
    forall j: nat | AluLast(ss', j) ensures AluLast(ss, j) && ss[j] == ss'[j] {
      assert ss'[next] != Nop;
      assert j > next;
    }
    forall ldi: nat, next': nat, add: nat, tax: nat, ild: nat
      | FreshX(ss, s, outUse, i) && X_ATOM !in outUse && next <= ldi && IndexPattern(ss', ldi, next', add, tax, ild)
      ensures DeadX(ss'[ild + 1..], s)
    {
      PatternBefore(ss, ss', next, ldi, next', add, tax, ild);
    }
  }

  predicate RealBefore(ss: seq<Stmt>, j: nat) {
    exists i :: 0 <= i < j && i < |ss| && ss[i] != Nop
  }

  /** Position `j` holds the arithmetic that `opt_peep` looks at before the branch: the last real statement,
      if it comes first of all or another real statement comes before it. */
  predicate TailAlu(ss: seq<Stmt>, j: nat) {
    AluLast(ss, j) && (j == 0 || RealBefore(ss, j))
  }

  /** What the loop knows of `ss`, once `ss0`, when it stands at `last`. */
  ghost predicate Looped(ss0: seq<Stmt>, ss: seq<Stmt>, last: nat) {
    && NopsStay(ss0, ss) && last < |ss| && (last == 0 ==> ss == ss0) && (last > 0 ==> RealBefore(ss0, last))
    && (last > 0 && ss[last] == Nop ==> exists k :: last < k < |ss| && ss[k].LdInd?)
    && (forall j: nat :: AluLast(ss0, j) ==> ss[j] == ss0[j] && last <= j)
    && forall j: nat :: AluLast(ss, j) ==> AluLast(ss0, j) && ss0[j] == ss[j]
  }

  lemma LoopStep(ss0: seq<Stmt>, ss: seq<Stmt>, ss': seq<Stmt>, last: nat, i: nat, next: nat)
    requires Looped(ss0, ss, last) && last <= i < next < |ss| && ss[i] != Nop && ss[next] != Nop
    requires Orderly(ss, ss', next)
    ensures Looped(ss0, ss', next)
  {
    assert ss0[i] != Nop && ss0[next] != Nop;
    forall j: nat | AluLast(ss0, j) ensures ss'[j] == ss0[j] && next <= j {
      assert ss[j] == ss0[j];
      forall k | j + 1 <= k < |ss| ensures ss[k] == Nop {
        assert ss0[k] == Nop;
      }
      assert AluLast(ss, j);
    }
  }

  /** Where the loop stops, it stands at the arithmetic before the branch, if there is any. */
  lemma LoopStops(ss0: seq<Stmt>, ss: seq<Stmt>, last: nat, i: nat)
    requires Looped(ss0, ss, last) && last <= i <= |ss| && NopsIn(ss, last, i)
    requires i < |ss| ==> ss[i] != Nop && NopsIn(ss, i + 1, |ss|)
    ensures ss[last] == Nop || NopsIn(ss, last + 1, |ss|)
    ensures IsAlu(ss[last]) ==> TailAlu(ss0, last) && ss0[last] == ss[last]
    ensures forall j: nat :: TailAlu(ss0, j) ==> j == last && ss[last] == ss0[last]
  {
    if IsAlu(ss[last]) {
      assert AluLast(ss, last);
    }
    forall j: nat | TailAlu(ss0, j) ensures j == last && ss[last] == ss0[last] {
      assert ss[j] == ss0[j] && last <= j;
      assert i == j;
    }
  }

  /** Neither a constant load nor a reload of X for the loop to find. */
  predicate NothingToPeep(ss: seq<Stmt>) {
    forall i :: 0 <= i < |ss| ==> !ss[i].LdImm? && !ss[i].LdxMem?
  }

  lemma TurnIs(ss: seq<Stmt>, last: nat, i: nat, next: nat, outUse: set<Atom>, gone: bool)
    requires last < |ss| && i == NextOp(ss, last) && (if i < |ss| then next == NextOp(ss, i + 1) else next == |ss|)
    ensures Turn(ss, last, outUse, gone) == if next == |ss| then None else Some(PairAt(ss, i, next, outUse, gone))
  {
  }

  lemma TurnGivesUp(ss: seq<Stmt>, last: nat, outUse: set<Atom>, gone: bool)
    requires last < |ss| && Turn(ss, last, outUse, gone).Some? && Turn(ss, last, outUse, gone).value.gone
    ensures gone || X_ATOM !in outUse
  {
  }

  lemma {:induction false} NothingPeeped(ss: seq<Stmt>, last: nat, outUse: set<Atom>, gone: bool)
    requires NothingToPeep(ss) && last < |ss|
    ensures var r := PeepFrom(ss, last, outUse, gone); r.ss == ss && r.gone == gone
    decreases |ss| - last
  {
    var r := Turn(ss, last, outUse, gone);
    if r.Some? {
      NothingPeeped(ss, r.value.last, outUse, gone);
    }
  }

  /** The loop of `opt_peep`; `last` is its last "next" statement, the one before the branch if real. */
  method PeepLoop(ss0: seq<Stmt>, s: Branch, outUse: set<Atom>) returns (ss: seq<Stmt>, last: nat, ghost gone: bool)
    requires ss0 != []
    ensures NopsStay(ss0, ss) && last < |ss| && (ss[last] == Nop || NopsIn(ss, last + 1, |ss|))
    ensures IsAlu(ss[last]) ==> TailAlu(ss0, last) && ss0[last] == ss[last]
    ensures forall j: nat :: TailAlu(ss0, j) ==> j == last && ss[last] == ss0[last]
    ensures FreshX(ss0, s, outUse, 0) ==> Kept(ss0, ss, gone) && (gone ==> Quiet(ss, last, s, outUse))
    ensures Peeping(ss, last, gone) == PeepFrom(ss0, 0, outUse, false)
  {
    ghost var clear, result := FreshX(ss0, s, outUse, 0), PeepFrom(ss0, 0, outUse, false);
    ss, last, gone := ss0, 0, false;
    var stop := false;
    while !stop
      invariant Looped(ss0, ss, last) && PeepFrom(ss, last, outUse, gone) == result
      invariant clear ==> FreshX(ss, s, outUse, last) && Kept(ss0, ss, gone) && (gone ==> Quiet(ss, last, s, outUse))
      invariant stop ==> Stopped(ss0, ss, last) && Turn(ss, last, outUse, gone).None?
      decreases |ss0| - last, !stop
    {
      stop, ss, last, gone := PeepTurn(ss0, ss, last, s, outUse, clear, gone);
    }
  }

  /** The loop stands at the arithmetic before the branch, if there is any. */
  ghost predicate Stopped(ss0: seq<Stmt>, ss: seq<Stmt>, last: nat) {
    && last < |ss| && last < |ss0| && (ss[last] == Nop || NopsIn(ss, last + 1, |ss|))
    && (IsAlu(ss[last]) ==> TailAlu(ss0, last) && ss0[last] == ss[last])
    && forall j: nat :: TailAlu(ss0, j) ==> j == last && ss[last] == ss0[last]
  }

  /** One turn of the loop. */
  method PeepTurn(ghost ss0: seq<Stmt>, ss: seq<Stmt>, last: nat, s: Branch, outUse: set<Atom>, ghost clear: bool,
                  ghost gone: bool)
    returns (stop: bool, ss': seq<Stmt>, last': nat, ghost gone': bool)
    requires Looped(ss0, ss, last)
    requires clear ==> FreshX(ss, s, outUse, last) && Kept(ss0, ss, gone) && (gone ==> Quiet(ss, last, s, outUse))
    ensures Looped(ss0, ss', last')
    ensures clear ==> FreshX(ss', s, outUse, last') && Kept(ss0, ss', gone') && (gone' ==> Quiet(ss', last', s, outUse))
    ensures Turn(ss, last, outUse, gone) == if stop then None else Some(Peeping(ss', last', gone'))
    ensures stop ==> ss' == ss && last' == last && gone' == gone && Stopped(ss0, ss, last)
  {
    stop, ss', last', gone' := false, ss, last, gone;
    var i := ThisOp(ss, last);
    var next := i;
    if i < |ss| {
      next := ThisOp(ss, i + 1);
    }
    TurnIs(ss, last, i, next, outUse, gone);
    if next == |ss| {
      LoopStops(ss0, ss, last, i);
      stop := true;
    } else {
      ss', gone' := PeepAt(ss, i, next, s, outUse, clear, gone);
      last' := next;
      LoopStep(ss0, ss, ss', last, i, next);
      if clear {
        KeptTrans(ss0, ss, ss', gone, gone');
      }
    }
  }

  /** Where a block goes after state `t`. */
  function Chosen(b: Block, t: State): nat
    requires b.s.Jmp?
  {
    if Taken(b.s, t) then b.jt else b.jf
  }

  /** The rewrites of the statement before an equality test against a constant. */
  function PeepTail(b: Block, last: nat, outUse: set<Atom>, cx: Option<Word>): Block
    requires last < |b.stmts|
  {
    if !(b.s.Jmp? && b.s.jop.Jeq? && b.s.src.FromK?) || A_ATOM in outUse then b
    else
      var without := b.(stmts := b.stmts[last := Nop]);
      match b.stmts[last]
      case AluX(Sub) =>
        if cx.Some? then without.(s := Jmp(Jeq, FromK, Offset(b.s.k, cx.value)))
        else if b.s.k == 0 then without.(s := Jmp(Jeq, FromX, 0))
        else b
      case AluK(Sub, c) => without.(s := Jmp(Jeq, FromK, Offset(b.s.k, c)))
      case AluK(And, c) => if b.s.k == 0 then without.(s := Jmp(Jset, FromK, c), jt := b.jf, jf := b.jt) else b
      case _ => b
  }

  /** jset #0 never goes, jset #0xffffffff is taken to go always. */
  function FoldJset(b: Block): Block {
    if b.s == Jmp(Jset, FromK, 0) then b.(jt := b.jf)
    else if b.s == Jmp(Jset, FromK, 0xffffffff) then b.(jf := b.jt)
    else b
  }

  /** A test of a known constant is decided. */
  function FoldConstant(b: Block, ca: Option<Word>): Block {
    if ca.Some? && b.s.Jmp? && b.s.src.FromK? then
      if Compare(b.s.jop, ca.value, b.s.k) then b.(jf := b.jt) else b.(jt := b.jf)
    else b
  }

  lemma SubBack(a: Word, x: Word)
    ensures Offset(a - x, x) == a
  {
  }

  lemma AddBack(k: Word, x: Word)
    ensures Alu(Sub, k + x, x) == Some(k)
  {
  }

  lemma DifferenceIs(a: Word, x: Word, d: Word)
    requires d == a - x
    ensures a == Offset(d, x)
  {
    SubBack(a, x);
  }

  lemma SumIs(a: Word, x: Word, k: Word)
    requires a == k + x
    ensures Alu(Sub, a, x) == Some(k)
  {
    AddBack(k, x);
  }

  lemma SubIs(a: Word, x: Word, d: Word)
    requires Alu(Sub, a, x) == Some(d)
    ensures d == a - x
  {
  }

  lemma OffsetIs(a: Word, x: Word, k: Word)
    requires a == Offset(k, x)
    ensures a == k + x
  {
  }

  lemma SubtractForth(a: Word, x: Word, k: Word)
    requires Alu(Sub, a, x) == Some(k)
    ensures a == Offset(k, x)
  {
    SubIs(a, x, k);
    DifferenceIs(a, x, k);
  }

  lemma SubtractBack(a: Word, x: Word, k: Word)
    requires a == Offset(k, x)
    ensures Alu(Sub, a, x) == Some(k)
  {
    OffsetIs(a, x, k);
    SumIs(a, x, k);
  }

  /** a - x == k  exactly when  a == k + x,  modulo 2^32. */
  lemma SubtractThenCompare(a: Word, x: Word, d: Word, k: Word)
    requires Alu(Sub, a, x) == Some(d)
    ensures d == k <==> a == Offset(k, x)
  {
    if d == k {
      SubtractForth(a, x, k);
    }
    if a == Offset(k, x) {
      SubtractBack(a, x, k);
    }
  }

  lemma OffsetZero(x: Word)
    ensures Offset(0, x) == x
  {
  }

  lemma LastStep(ss: seq<Stmt>, last: nat, st: State, p: Packet)
    requires last < |ss| && NopsIn(ss, last + 1, |ss|)
    ensures ExecAll(ss[last := Nop], st, p) == ExecAll(ss[..last], st, p)
    ensures ExecAll(ss, st, p) ==
              match ExecAll(ss[..last], st, p) { case None => None case Some(u) => Exec(ss[last], u, p) }
  {
    var ss' := ss[last := Nop];
    FromPrefix(ss, last, st, p);
    FromPrefix(ss', last, st, p);
    assert ss'[..last] == ss[..last] && ss[|ss|..] == [] && ss'[|ss|..] == [];
    match ExecAll(ss[..last], st, p)
    case None =>
    case Some(u) =>
      StepTo(ss, last, |ss|, u, p);
      SkipNops(ss', last, |ss|, u, p);
  }

  lemma AluEffect(s: Stmt, u: State, t: State, p: Packet)
    requires IsAlu(s) && Exec(s, u, p) == Some(t)
    ensures AgreeExcept(t, u, {A_ATOM}) && Alu(s.op, u[A_ATOM], if s.AluK? then s.k else u[X_ATOM]) == Some(t[A_ATOM])
  {
  }

  /** A rewritten tail test goes the same way: `u` and `t` are the states before and after the last statement. */
  lemma TailGoesSame(b: Block, last: nat, outUse: set<Atom>, cx: Option<Word>, u: State, t: State)
    requires last < |b.stmts| && b.s.Jmp? && PeepTail(b, last, outUse, cx) != b && IsAlu(b.stmts[last])
    requires AgreeExcept(t, u, {A_ATOM}) && (b.stmts[last] == AluX(Sub) && cx.Some? ==> t[X_ATOM] == cx.value)
    requires var s := b.stmts[last]; Alu(s.op, u[A_ATOM], if s.AluK? then s.k else u[X_ATOM]) == Some(t[A_ATOM])
    ensures PeepTail(b, last, outUse, cx).s.Jmp? && Chosen(PeepTail(b, last, outUse, cx), u) == Chosen(b, t)
  {
    match b.stmts[last]
    case AluX(Sub) =>
      SubtractThenCompare(u[A_ATOM], u[X_ATOM], t[A_ATOM], b.s.k);
      SubXGoesSame(b, last, outUse, cx, u, t);
    case AluK(Sub, c) => SubtractThenCompare(u[A_ATOM], c, t[A_ATOM], b.s.k);
    case AluK(And, c) => MaskThenCompare(u[A_ATOM], c, t[A_ATOM]);
  }

  lemma SubXGoesSame(b: Block, last: nat, outUse: set<Atom>, cx: Option<Word>, u: State, t: State)
    requires last < |b.stmts| && b.s.Jmp? && PeepTail(b, last, outUse, cx) != b && b.stmts[last] == AluX(Sub)
    requires t[X_ATOM] == u[X_ATOM] && (cx.Some? ==> t[X_ATOM] == cx.value)
    requires t[A_ATOM] == b.s.k <==> u[A_ATOM] == Offset(b.s.k, u[X_ATOM])
    ensures PeepTail(b, last, outUse, cx).s.Jmp? && Chosen(PeepTail(b, last, outUse, cx), u) == Chosen(b, t)
  {
    OffsetZero(u[X_ATOM]);
  }

  lemma MaskThenCompare(a: Word, c: Word, d: Word)
    requires Alu(And, a, c) == Some(d)
    ensures d == 0 <==> !Compare(Jset, a, c)
  {
  }

  /** The branch is a test of all bits, which `opt_peep` takes to succeed always. */
  predicate FullMask(s: Branch) {
    s == Jmp(Jset, FromK, 0xffffffff)
  }

  lemma MaskFacts(a: Word)
    ensures !Compare(Jset, a, 0) && (Compare(Jset, a, 0xffffffff) <==> a != 0)
  {
  }

  /** Deciding "jset" by its mask is right except for a full mask when A is 0. */
  lemma FoldJsetExact(b: Block, t: State)
    requires b.s.Jmp?
    ensures Chosen(FoldJset(b), t) == Chosen(b, t) <==> !(FullMask(b.s) && t[A_ATOM] == 0 && b.jt != b.jf)
  {
    MaskFacts(t[A_ATOM]);
  }

  /** The last real statement computes with X. */
  predicate XLast(ss: seq<Stmt>) {
    exists j :: 0 <= j < |ss| && AluLast(ss, j) && ss[j].AluX?
  }

  /** What value numbering knows of A and, if it is about to be used, of X at the end of the block. */
  predicate Known(ss: seq<Stmt>, ca: Option<Word>, cx: Option<Word>, t: State) {
    (ca.Some? ==> t[A_ATOM] == ca.value) && (cx.Some? && XLast(ss) ==> t[X_ATOM] == cx.value)
  }

  /** The block ends in a test of all bits, or in the mask of all bits and comparison with 0 that become
      one. */
  predicate TestsAllBits(b: Block, outUse: set<Atom>) {
    b.stmts != [] &&
    (|| FullMask(b.s)
     || (b.s == Jmp(Jeq, FromK, 0) && A_ATOM !in outUse &&
         exists j :: 0 <= j < |b.stmts| && TailAlu(b.stmts, j) && b.stmts[j] == AluK(And, 0xffffffff)))
  }

  /** The tail rewrite gives up A. */
  function TailLost(b: Block, last: nat, outUse: set<Atom>, cx: Option<Word>): set<Atom>
    requires last < |b.stmts|
  {
    if PeepTail(b, last, outUse, cx) == b then {} else {A_ATOM}
  }

  /** The atoms that `opt_peep` gives up, of those not in `outUse`. */
  function PeepLost(b: Block, outUse: set<Atom>, cx: Option<Word>): set<Atom> {
    if !b.s.Jmp? || b.stmts == [] then {}
    else
      var r := PeepFrom(b.stmts, 0, outUse, false);
      (if r.gone then {X_ATOM} else {}) + TailLost(b.(stmts := r.ss), r.last, outUse, cx)
  }

  lemma {:induction false} GoneIsDead(ss: seq<Stmt>, last: nat, outUse: set<Atom>, gone: bool)
    requires last < |ss| && PeepFrom(ss, last, outUse, gone).gone
    ensures gone || X_ATOM !in outUse
    decreases |ss| - last
  {
    var r := Turn(ss, last, outUse, gone);
    if r.Some? {
      GoneIsDead(r.value.ss, r.value.last, outUse, r.value.gone);
      if r.value.gone {
        TurnGivesUp(ss, last, outUse, gone);
      }
    }
  }

  /** Nothing live out is given up. */
  lemma LostIsDead(b: Block, outUse: set<Atom>, cx: Option<Word>)
    ensures PeepLost(b, outUse, cx) !! outUse
  {
    if b.s.Jmp? && b.stmts != [] && PeepFrom(b.stmts, 0, outUse, false).gone {
      GoneIsDead(b.stmts, 0, outUse, false);
    }
  }

  /** `opt_peep` as a function. */
  function PeepBlock(b: Block, outUse: set<Atom>, ca: Option<Word>, cx: Option<Word>): Block {
    if !b.s.Jmp? || b.stmts == [] then b
    else
      var r := PeepFrom(b.stmts, 0, outUse, false);
      FoldConstant(FoldJset(PeepTail(b.(stmts := r.ss), r.last, outUse, cx)), ca)
  }

  /** A peephole pass over a block that leaves A with `t[A]`: all atoms but `lost` are kept, and the successor
      chosen is the same except exactly when the block tests all bits, A is 0 and the targets differ. */
  predicate PeepKeeps(b: Block, b': Block, outUse: set<Atom>, lost: set<Atom>, t: State, r: Option<State>)
    requires b.s.Jmp?
  {
    && r.Some? && AgreeExcept(t, r.value, lost) && b'.s.Jmp?
    && (Chosen(b', r.value) == Chosen(b, t) <==> !(TestsAllBits(b, outUse) && t[A_ATOM] == 0 && b.jt != b.jf))
  }

  lemma FoldConstantRight(b: Block, ca: Option<Word>, t: State)
    requires b.s.Jmp? && (ca.Some? ==> t[A_ATOM] == ca.value)
    ensures FoldConstant(b, ca).s == b.s && Chosen(FoldConstant(b, ca), t) == Chosen(b, t)
  {
  }

  lemma LoopKeeps(b: Block, ss: seq<Stmt>, outUse: set<Atom>, t: State, t1: State, gone: bool, last: nat)
    requires b.s.Jmp? && AgreeExcept(t, t1, {X_ATOM}) && (!gone ==> t1 == t) && (gone ==> Quiet(ss, last, b.s, outUse))
    ensures t1[A_ATOM] == t[A_ATOM] && Chosen(b.(stmts := ss), t1) == Chosen(b, t)
    ensures AgreeExcept(t, t1, if gone then {X_ATOM} else {})
  {
  }

  lemma MaskAll(a: Word, d: Word)
    requires Alu(And, a, 0xffffffff) == Some(d)
    ensures d == a
  {
  }

  /** A full-mask test that the tail rewrite makes sees the A the block had. */
  lemma FullMaskSeesA(b: Block, last: nat, outUse: set<Atom>, cx: Option<Word>, u: State, t: State)
    requires last < |b.stmts| && PeepTail(b, last, outUse, cx) != b && FullMask(PeepTail(b, last, outUse, cx).s)
    requires IsAlu(b.stmts[last])
    requires var s := b.stmts[last]; Alu(s.op, u[A_ATOM], if s.AluK? then s.k else u[X_ATOM]) == Some(t[A_ATOM])
    ensures u[A_ATOM] == t[A_ATOM]
  {
    assert b.stmts[last] == AluK(And, 0xffffffff);
    MaskAll(u[A_ATOM], t[A_ATOM]);
  }

  lemma PeepTailKeeps(b: Block, last: nat, outUse: set<Atom>, cx: Option<Word>, st: State, t: State, p: Packet)
    requires b.s.Jmp? && last < |b.stmts| && (b.stmts[last] == Nop || NopsIn(b.stmts, last + 1, |b.stmts|))
    requires ExecAll(b.stmts, st, p) == Some(t) && (b.stmts[last] == AluX(Sub) && cx.Some? ==> t[X_ATOM] == cx.value)
    ensures var b' := PeepTail(b, last, outUse, cx);
            && ExecAll(b'.stmts, st, p).Some? && b'.s.Jmp?
            && AgreeExcept(t, ExecAll(b'.stmts, st, p).value, TailLost(b, last, outUse, cx))
            && Chosen(b', ExecAll(b'.stmts, st, p).value) == Chosen(b, t)
            && (FullMask(b'.s) ==> ExecAll(b'.stmts, st, p).value[A_ATOM] == t[A_ATOM])
  {
    if PeepTail(b, last, outUse, cx) != b {
      LastStep(b.stmts, last, st, p);
      var u := ExecAll(b.stmts[..last], st, p).value;
      AluEffect(b.stmts[last], u, t, p);
      TailGoesSame(b, last, outUse, cx, u, t);
      if FullMask(PeepTail(b, last, outUse, cx).s) {
        FullMaskSeesA(b, last, outUse, cx, u, t);
      }
    }
  }

  /** The tail of the rewritten block is a full-mask test exactly when the block tests all bits. */
  lemma FullMaskFrom(b: Block, ss: seq<Stmt>, last: nat, outUse: set<Atom>, cx: Option<Word>)
    requires b.stmts != [] && last < |ss| == |b.stmts|
    requires IsAlu(ss[last]) ==> TailAlu(b.stmts, last) && b.stmts[last] == ss[last]
    requires forall j: nat :: TailAlu(b.stmts, j) ==> j == last && ss[last] == b.stmts[last]
    ensures FullMask(PeepTail(b.(stmts := ss), last, outUse, cx).s) <==> TestsAllBits(b, outUse)
  {
  }

  lemma AgreeTwice(t: State, t1: State, t2: State, on: set<Atom>)
    requires Agree(t, t1, on) && Agree(t1, t2, on)
    ensures Agree(t, t2, on)
  {
    forall a: Atom | a in on ensures t[a] == t2[a] {
      assert t[a] == t1[a];
    }
  }

  lemma ExceptTwice(t: State, t1: State, t2: State, off: set<Atom>, off': set<Atom>)
    requires AgreeExcept(t, t1, off) && AgreeExcept(t1, t2, off')
    ensures AgreeExcept(t, t2, off + off')
  {
    forall a: Atom | a !in off + off' ensures t[a] == t2[a] {
      assert t[a] == t1[a];
    }
  }

  /** The foldings after the tail rewrite. */
  lemma FoldsKeep(b: Block, b2: Block, outUse: set<Atom>, lost: set<Atom>, ca: Option<Word>, t: State, t2: State)
    requires b.s.Jmp? && b2.s.Jmp? && AgreeExcept(t, t2, lost) && Chosen(b2, t2) == Chosen(b, t)
    requires (ca.Some? ==> t2[A_ATOM] == ca.value) && (FullMask(b2.s) ==> t2[A_ATOM] == t[A_ATOM])
    requires (FullMask(b2.s) <==> TestsAllBits(b, outUse)) && (b2.jt == b2.jf <==> b.jt == b.jf)
    ensures PeepKeeps(b, FoldConstant(FoldJset(b2), ca), outUse, lost, t, Some(t2))
  {
    FoldJsetExact(b2, t2);
    FoldConstantRight(FoldJset(b2), ca, t2);
  }

  lemma TailKeeps(b: Block, ss: seq<Stmt>, last: nat, outUse: set<Atom>, ca: Option<Word>, cx: Option<Word>,
                  gone: bool, st: State, p: Packet)
    requires b.s.Jmp? && b.stmts != [] && ExecAll(b.stmts, st, p).Some?
    requires Known(b.stmts, ca, cx, ExecAll(b.stmts, st, p).value)
    requires SameRun(ExecAll(b.stmts, st, p), ExecAll(ss, st, p), !gone)
    requires last < |ss| && (ss[last] == Nop || NopsIn(ss, last + 1, |ss|)) && (gone ==> Quiet(ss, last, b.s, outUse))
    requires (ca.Some? ==> !IsAlu(ss[last])) && (ss[last].AluX? ==> XLast(b.stmts))
    requires FullMask(PeepTail(b.(stmts := ss), last, outUse, cx).s) <==> TestsAllBits(b, outUse)
    ensures var b' := FoldConstant(FoldJset(PeepTail(b.(stmts := ss), last, outUse, cx)), ca);
            PeepKeeps(b, b', outUse, (if gone then {X_ATOM} else {}) + TailLost(b.(stmts := ss), last, outUse, cx),
                      ExecAll(b.stmts, st, p).value, ExecAll(b'.stmts, st, p))
  {
    var b1 := b.(stmts := ss);
    var b2 := PeepTail(b1, last, outUse, cx);
    var t, t1 := ExecAll(b.stmts, st, p).value, ExecAll(ss, st, p).value;
    LoopKeeps(b, ss, outUse, t, t1, gone, last);
    PeepTailKeeps(b1, last, outUse, cx, st, t1, p);
    var t2 := ExecAll(b2.stmts, st, p).value;
    var off, off' := if gone then {X_ATOM} else {}, TailLost(b1, last, outUse, cx);
    ExceptTwice(t, t1, t2, off, off');
    FoldsKeep(b, b2, outUse, off + off', ca, t, t2);
  }

  /** No rewrite of `opt_peep` applies. */
  predicate LeftAlone(b: Block, ca: Option<Word>) {
    && NothingToPeep(b.stmts) && (forall i :: 0 <= i < |b.stmts| ==> !IsAlu(b.stmts[i]))
    && b.s.Jmp? && !b.s.jop.Jset? && ca.None?
  }

  lemma PeepLeavesAlone(b: Block, outUse: set<Atom>, ca: Option<Word>, cx: Option<Word>)
    requires LeftAlone(b, ca)
    ensures PeepBlock(b, outUse, ca, cx) == b && PeepLost(b, outUse, cx) == {}
  {
    if b.stmts != [] {
      NothingPeeped(b.stmts, 0, outUse, false);
    }
  }

  /** Where a rewritten block may lead, and that nothing deleted comes back. */
  predicate PeepShape(b: Block, b': Block) {
    NopsStay(b.stmts, b'.stmts) && b'.s.Jmp? && b'.jt in {b.jt, b.jf} && b'.jf in {b.jt, b.jf}
  }

  lemma TailShape(b: Block, ss: seq<Stmt>, last: nat, outUse: set<Atom>, ca: Option<Word>, cx: Option<Word>)
    requires b.s.Jmp? && NopsStay(b.stmts, ss) && last < |ss|
    ensures PeepShape(b, FoldConstant(FoldJset(PeepTail(b.(stmts := ss), last, outUse, cx)), ca))
  {
  }

  /** `opt_peep`.  `ca` and `cx` are the constants value numbering found for A and X on exit.  When A is
      constant the last statement is not arithmetic, for numbering would have folded it. */
  method OptPeep(b: Block, outUse: set<Atom>, ca: Option<Word>, cx: Option<Word>) returns (b': Block)
    requires b.s.Jmp?
    requires ca.Some? ==> forall j: nat :: !AluLast(b.stmts, j)
    ensures b' == PeepBlock(b, outUse, ca, cx) && PeepShape(b, b')
    ensures FreshX(b.stmts, b.s, outUse, 0) ==> forall st: State, p: Packet ::
              ExecAll(b.stmts, st, p).Some? && Known(b.stmts, ca, cx, ExecAll(b.stmts, st, p).value) ==>
                PeepKeeps(b, b', outUse, PeepLost(b, outUse, cx), ExecAll(b.stmts, st, p).value,
                          ExecAll(b'.stmts, st, p))
  {
    if b.stmts == [] {
      return b;
    }
    var ss, last;
    ghost var gone;
    ss, last, gone := PeepLoop(b.stmts, b.s, outUse);
    FullMaskFrom(b, ss, last, outUse, cx);
    b' := FoldConstant(FoldJset(PeepTail(b.(stmts := ss), last, outUse, cx)), ca);
    TailShape(b, ss, last, outUse, ca, cx);
    if FreshX(b.stmts, b.s, outUse, 0) {
      TailKeepsAll(b, b', ss, last, outUse, ca, cx, gone, PeepLost(b, outUse, cx));
    }
  }

  lemma TailKeepsAll(b: Block, b': Block, ss: seq<Stmt>, last: nat, outUse: set<Atom>, ca: Option<Word>,
                     cx: Option<Word>, gone: bool, lost: set<Atom>)
    requires b.s.Jmp? && b.stmts != [] && Kept(b.stmts, ss, gone) && last < |ss|
    requires (ss[last] == Nop || NopsIn(ss, last + 1, |ss|)) && (gone ==> Quiet(ss, last, b.s, outUse))
    requires (ca.Some? ==> !IsAlu(ss[last])) && (ss[last].AluX? ==> XLast(b.stmts))
    requires FullMask(PeepTail(b.(stmts := ss), last, outUse, cx).s) <==> TestsAllBits(b, outUse)
    requires b' == FoldConstant(FoldJset(PeepTail(b.(stmts := ss), last, outUse, cx)), ca)
    requires lost == (if gone then {X_ATOM} else {}) + TailLost(b.(stmts := ss), last, outUse, cx)
    ensures forall st: State, p: Packet ::
              ExecAll(b.stmts, st, p).Some? && Known(b.stmts, ca, cx, ExecAll(b.stmts, st, p).value) ==>
                PeepKeeps(b, b', outUse, lost, ExecAll(b.stmts, st, p).value, ExecAll(b'.stmts, st, p))
  {
    forall st: State, p: Packet |
      ExecAll(b.stmts, st, p).Some? && Known(b.stmts, ca, cx, ExecAll(b.stmts, st, p).value)
      ensures PeepKeeps(b, b', outUse, lost, ExecAll(b.stmts, st, p).value, ExecAll(b'.stmts, st, p))
    {
      assert SameRun(ExecAll(b.stmts, st, p), ExecAll(ss, st, p), !gone);
      TailKeeps(b, ss, last, outUse, ca, cx, gone, st, p);
    }
  }

  function FullMaskCode(k: Word): Block {
    Block([LdAbs(W, k), AluK(And, 0xffffffff)], Jmp(Jeq, FromK, 0), 1, 2)
  }

  lemma FullMaskRuns(b: Block, k: Word, st: State, p: Packet)
    requires b == FullMaskCode(k) && p.load(W, k) == Some(0)
    ensures ExecAll(b.stmts, st, p) == Some(st[A_ATOM := 0]) && Chosen(b, st[A_ATOM := 0]) == 1
    ensures TestsAllBits(b, {})
  {
    var st1, rest := st[A_ATOM := 0], [AluK(And, 0xffffffff)] + [];
    assert TailAlu(b.stmts, 1) by { assert b.stmts[0] != Nop; }
    assert b.stmts == [LdAbs(W, k)] + rest;
    Exec1(LdAbs(W, k), rest, st, p);
    Exec1(AluK(And, 0xffffffff), [], st1, p);
    assert Alu(And, 0, 0xffffffff) == Some(0) && st1[A_ATOM := 0] == st1;
  }

  /** So `opt_peep` goes wrong on the code of  "ip[k:4] & 0xffffffff = 0":  where the word is 0 the block goes
      to 1 and the rewritten block to 2. */
  method FullMaskIsWrong(k: Word) returns (b': Block)
    ensures b' == PeepBlock(FullMaskCode(k), {}, None, None) && b'.s.Jmp?
    ensures forall st: State, p: Packet :: p.load(W, k) == Some(0) ==>
              && ExecAll(FullMaskCode(k).stmts, st, p) == Some(st[A_ATOM := 0])
              && Chosen(FullMaskCode(k), st[A_ATOM := 0]) == 1
              && ExecAll(b'.stmts, st, p).Some? && Chosen(b', ExecAll(b'.stmts, st, p).value) == 2
  {
    var b := FullMaskCode(k);
    b' := OptPeep(b, {}, None, None);
    forall st: State, p: Packet | p.load(W, k) == Some(0)
      ensures ExecAll(b.stmts, st, p) == Some(st[A_ATOM := 0]) && Chosen(b, st[A_ATOM := 0]) == 1
      ensures ExecAll(b'.stmts, st, p).Some? && Chosen(b', ExecAll(b'.stmts, st, p).value) == 2
    {
      FullMaskRuns(b, k, st, p);
      assert PeepKeeps(b, b', {}, PeepLost(b, {}, None), st[A_ATOM := 0], ExecAll(b'.stmts, st, p));
    }
  }
}
