/** How much of the sweep's condition is necessary: what an emptied block needs, exactly, and what becomes of a
    test whose X its predecessor has lost. */
module LostAtoms {
  import opened Collections
  import opened Machine
  import opened Atoms
  import opened Liveness
  import opened DeadStores
  import opened Peephole

  /** A comparison with a constant that always comes out the same. */
  predicate Decided(s: Branch) {
    s.Jmp? && s.src.FromK? && (s == Jmp(Jset, FromK, 0) || s == Jmp(Jge, FromK, 0) || s == Jmp(Jgt, FromK, 0xffffffff))
  }

  /** `a` can be compared with some X both ways. */
  predicate Sways(op: JmpOp, a: Word) {
    match op
    case Jeq => true
    case Jgt => a != 0
    case Jge => a != 0xffffffff
    case Jset => a != 0
  }

  lemma SwayExact(op: JmpOp, a: Word)
    ensures (exists x: Word, y: Word :: Compare(op, a, x) && !Compare(op, a, y)) <==> Sways(op, a)
  {
    match op
    case Jeq => assert Compare(Jeq, a, a) && !Compare(Jeq, a, a + 1);
    case Jgt =>
      if a != 0 { assert Compare(Jgt, a, 0) && !Compare(Jgt, a, a); }
    case Jge =>
      if a != 0xffffffff { assert Compare(Jge, a, a) && !Compare(Jge, a, 0xffffffff); }
    case Jset =>
      if a != 0 {
        MaskOfItself(a);
        assert !Compare(Jset, a, 0);
      }
  }

  lemma MaskOfItself(a: Word)
    requires a != 0
    ensures Compare(Jset, a, a)
  {
  }

  /** Some A is compared with X = 1 both ways. */
  lemma SwayedByA(op: JmpOp) returns (a: Word, b: Word)
    ensures Compare(op, a, 1) && !Compare(op, b, 1)
  {
    a, b := if op.Jgt? then 2 else 1, 0;
  }

  lemma SwayedByConstant(s: Branch) returns (a: Word, b: Word)
    requires s.Jmp? && s.src.FromK? && !Decided(s)
    ensures Compare(s.jop, a, s.k) && !Compare(s.jop, b, s.k)
  {
    match s.jop
    case Jeq => a, b := s.k, s.k + 1;
    case Jgt => a, b := 0xffffffff, 0;
    case Jge => a, b := 0xffffffff, 0;
    case Jset =>
      MaskOfItself(s.k);
      a, b := s.k, 0;
  }

  lemma DecidedSame(s: Branch, st: State, st': State)
    requires Decided(s)
    ensures Taken(s, st) == Taken(s, st')
  {
  }

  /** Two states that agree on `on` and take the branch differently. */
  lemma Disagreement(s: Branch, on: AtomSet) returns (st: State, st': State)
    requires s.Jmp? && !(BranchUse(s) <= on) && !Decided(s)
    ensures Agree(st, st', on) && Taken(s, st) && !Taken(s, st')
  {
    var zero: State := seq(18, _ => 0);
    if s.src.FromK? {
      var a, b := SwayedByConstant(s);
      st, st' := zero[A_ATOM := a], zero[A_ATOM := b];
    } else if X_ATOM in on {
      var a, b := SwayedByA(s.jop);
      st, st' := zero[X_ATOM := 1][A_ATOM := a], zero[X_ATOM := 1][A_ATOM := b];
    } else {
      SwayExact(s.jop, 1);
      var x: Word, y: Word :| Compare(s.jop, 1, x) && !Compare(s.jop, 1, y);
      st, st' := zero[A_ATOM := 1][X_ATOM := x], zero[A_ATOM := 1][X_ATOM := y];
    }
  }

  /** States that agree on `on` leave an emptied block the same way exactly when `on` has all that its branch
      reads, unless the branch makes no difference. */
  lemma EmptiedExact(c: Block, on: AtomSet)
    requires c.s.Jmp? && c.stmts == []
    ensures (forall st: State, st': State :: Agree(st, st', on) ==> Chosen(c, st) == Chosen(c, st')) <==>
              BranchUse(c.s) <= on || c.jt == c.jf || Decided(c.s)
  {
    if Decided(c.s) {
      forall st: State, st': State ensures Chosen(c, st) == Chosen(c, st') {
        DecidedSame(c.s, st, st');
      }
    } else if !(BranchUse(c.s) <= on) {
      var st, st' := Disagreement(c.s, on);
    }
  }

  /** What ignores X carries it through. */
  lemma {:induction false} Carried(ss: seq<Stmt>, st: State, x: Word, p: Packet)
    requires forall i :: 0 <= i < |ss| ==> Ignores(ss[i], X_ATOM)
    ensures ExecAll(ss, st[X_ATOM := x], p).Some? == ExecAll(ss, st, p).Some?
    ensures ExecAll(ss, st, p).Some? ==> ExecAll(ss, st[X_ATOM := x], p).value == ExecAll(ss, st, p).value[X_ATOM := x]
  {
    if ss != [] {
      assert Ignores(ss[0], X_ATOM);
      ExecFrame(ss[0], st, st[X_ATOM := x], p);
      if Exec(ss[0], st, p).Some? {
        var t := Exec(ss[0], st, p).value;
        assert Exec(ss[0], st[X_ATOM := x], p).value == t[X_ATOM := x];
        forall i | 0 <= i < |ss[1..]| ensures Ignores(ss[1..][i], X_ATOM) {
          assert ss[1..][i] == ss[i + 1];
        }
        Carried(ss[1..], t, x, p);
      }
    }
  }

  function WithX(st: State, x: Word): State {
    st[X_ATOM := x]
  }

  /** From some X the test does not go `way`. */
  ghost predicate Avoids(c: Block, t: State, way: nat)
    requires c.s.Jmp?
  {
    exists x: Word :: Chosen(c, WithX(t, x)) != way
  }

  /** A block that no longer sets X, followed by an emptied test of A against X: whichever way the test ought to
      go, from some X on entry it goes the other, exactly when the A it sees can be compared both ways. */
  lemma LostTestGoesAstray(b: Block, c: Block, st: State, t: State, p: Packet)
    requires (forall i :: 0 <= i < |b.stmts| ==> Ignores(b.stmts[i], X_ATOM)) && ExecAll(b.stmts, st, p) == Some(t)
    requires c.s.Jmp? && c.s.src.FromX? && c.stmts == [] && c.jt != c.jf
    ensures forall x: Word :: ExecAll(b.stmts, WithX(st, x), p) == Some(WithX(t, x))
    ensures (forall way: nat :: Avoids(c, t, way)) <==> Sways(c.s.jop, t[A_ATOM])
  {
    forall x: Word ensures ExecAll(b.stmts, WithX(st, x), p) == Some(WithX(t, x)) {
      Carried(b.stmts, st, x, p);
    }
    var op, a := c.s.jop, t[A_ATOM];
    SwayExact(op, a);
    if Sways(op, a) {
      var x: Word, y: Word :| Compare(op, a, x) && !Compare(op, a, y);
      assert Chosen(c, WithX(t, x)) == c.jt && Chosen(c, WithX(t, y)) == c.jf;
    } else {
      forall x: Word ensures Chosen(c, WithX(t, x)) == Chosen(c, t) {
        assert Compare(op, a, x) == Compare(op, a, t[X_ATOM]);
      }
      assert !Avoids(c, t, Chosen(c, t));
    }
  }
}
