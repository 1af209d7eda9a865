/** What the second loop of the optimizer is for: of two tests of the same field, as in  "ip or arp",  the second
    is left to use the load of the first.  The sweep goes by live-out sets in which that load is dead, and is
    right all the same, because the branch of the first test keeps it. */
module SharedLoad {
  import opened Collections
  import opened Machine
  import opened Atoms
  import opened Levels
  import opened Liveness
  import opened ValueNumbers
  import opened Numbering
  import opened Peephole
  import opened PeepholePass
  import opened Sweep
  import opened Optimizer

  function Twice(size: Size, o: Word, k0: Word, k1: Word, snaplen: Word): Graph {
    [Block([LdAbs(size, o)], Jmp(Jeq, FromK, k0), 2, 1), Block([LdAbs(size, o)], Jmp(Jeq, FromK, k1), 2, 3),
     Block([], RetK(snaplen), 0, 0), Block([], RetK(0), 0, 0)]
  }

  /** Two tests of a field, with levels. */
  predicate TestsTwice(g: Graph, lv: seq<int>, size: Size, o: Word, k0: Word, k1: Word) {
    && |g| == 4 && Leveled(g, lv) && (forall b :: 0 <= b < 4 ==> lv[b] >= 0)
    && g[0] == Block([LdAbs(size, o)], Jmp(Jeq, FromK, k0), 2, 1)
    && g[1] == Block([LdAbs(size, o)], Jmp(Jeq, FromK, k1), 2, 3)
    && (forall b :: 2 <= b < 4 ==> g[b].stmts == [] && g[b].s.RetK?)
  }

  lemma OneLoad(vs: VState, size: Size, o: Word, alter: bool, ss: seq<Stmt>)
    requires InTable(vs.tbl, vs.val) && ss == [LdAbs(size, o)]
    ensures var r, step := OptStmts(vs, ss, alter), OptStmt(vs, LdAbs(size, o), alter);
            r == BDone(step.vs, [step.s]) && step.s in {LdAbs(size, o), Nop}
  {
    assert ss[1..] == [];
    assert OptStmts(OptStmt(vs, LdAbs(size, o), alter).vs, [], alter).BDone?;
  }

  /** A has the number of the field. */
  predicate Loaded(tbl: Table, val: Vals, size: Size, o: Word) {
    InTable(tbl, val) && val[A_ATOM] > 0 && tbl[val[A_ATOM] - 1] == KAbs(size, o)
  }

  lemma FirstLoad(vs: VState, size: Size, o: Word)
    requires InTable(vs.tbl, vs.val) && vs.val[A_ATOM] == 0
    ensures var step := OptStmt(vs, LdAbs(size, o), true);
            step.Done? && step.s == LdAbs(size, o) && Loaded(step.vs.tbl, step.vs.val, size, o)
  {
  }

  lemma SecondLoad(vs: VState, size: Size, o: Word)
    requires Loaded(vs.tbl, vs.val, size, o) && Proper(vs.tbl)
    ensures OptStmt(vs, LdAbs(size, o), true) == Done(vs, Nop)
  {
    assert Intern(vs.tbl, KAbs(size, o)) == (vs.tbl, vs.val[A_ATOM]);
  }

  lemma FirstTestNumbered(g: Graph, g1: Graph, live: set<nat>, n: Numbers, size: Size, o: Word)
    requires Numbered(g, g1, 0, live, n, true) && 0 in live && g[0].stmts == [LdAbs(size, o)]
    ensures g1[0] == g[0] && n.entry[0][A_ATOM] == 0 && Loaded(n.ends[0], n.exit[0], size, o)
    ensures ConstantAt(n, 0, A_ATOM) == None
  {
    assert NumberedWell(g, g1, 0, live, n, true, 0);
    var vs := VState(n.starts[0], n.entry[0]);
    FirstLoad(vs, size, o);
    OneLoad(vs, size, o, true, g[0].stmts);
  }

  lemma EntryLoaded(g: Graph, g1: Graph, live: set<nat>, n: Numbers, size: Size, o: Word)
    requires Numbered(g, g1, 0, live, n, true) && 0 in live && 1 in live && Loaded(n.ends[0], n.exit[0], size, o)
    requires forall q: nat :: q in live && BlockRel(g)(q, 1) ==> q == 0
    ensures Loaded(n.starts[1], n.entry[1], size, o) && Proper(n.starts[1])
  {
    assert NumberedWell(g, g1, 0, live, n, true, 0) && NumberedWell(g, g1, 0, live, n, true, 1);
    SecondEntry(g, live, n);
    ProperPrefix(n.starts[1], n.tbl);
    SameKey(n.tbl, n.ends[0], n.starts[1], n.exit[0], n.entry[1], size, o);
  }

  lemma SecondEntry(g: Graph, live: set<nat>, n: Numbers)
    requires Sized(g, n) && 1 < |g| && (forall q :: q in live ==> q < |g|) && Joins(g, 0, live, n, 1)
    requires forall q: nat :: q in live && BlockRel(g)(q, 1) ==> q == 0
    ensures n.entry[1][A_ATOM] == n.exit[0][A_ATOM]
  {
    assert PredsLeave(g, live, n, 1, A_ATOM, n.exit[0][A_ATOM]);
  }

  lemma SameKey(tbl: Table, before: Table, after: Table, val: Vals, val': Vals, size: Size, o: Word)
    requires before <= tbl && after <= tbl && Loaded(before, val, size, o) && InTable(after, val')
    requires val'[A_ATOM] == val[A_ATOM]
    ensures Loaded(after, val', size, o)
  {
  }

  /** The second test's load is deleted. */
  lemma SecondNumbered(g: Graph, g1: Graph, live: set<nat>, n: Numbers, size: Size, o: Word)
    requires Numbered(g, g1, 0, live, n, true) && 1 in live && g[1].stmts == [LdAbs(size, o)]
    requires Loaded(n.starts[1], n.entry[1], size, o) && Proper(n.starts[1])
    ensures g1[1] == g[1].(stmts := [Nop])
  {
    assert NumberedWell(g, g1, 0, live, n, true, 1);
    var vs := VState(n.starts[1], n.entry[1]);
    SecondLoad(vs, size, o);
    OneLoad(vs, size, o, true, g[1].stmts);
  }

  lemma RestNumbered(g: Graph, g1: Graph, live: set<nat>, n: Numbers, b: nat)
    requires Numbered(g, g1, 0, live, n, true) && b in live && g[b].stmts == []
    ensures g1[b] == g[b]
  {
    assert NumberedWell(g, g1, 0, live, n, true, b);
  }

  lemma OneWayIn(g: Graph, lv: seq<int>, size: Size, o: Word, k0: Word, k1: Word, live: set<nat>)
    requires TestsTwice(g, lv, size, o, k0, k1)
    ensures forall q: nat :: q in live && BlockRel(g)(q, 1) ==> q == 0
  {
  }

  lemma TwiceNumbered(g: Graph, lv: seq<int>, g1: Graph, live: set<nat>, n: Numbers, size: Size, o: Word, k0: Word,
                      k1: Word)
    requires TestsTwice(g, lv, size, o, k0, k1) && live == {0, 1, 2, 3} && Numbered(g, g1, 0, live, n, true)
    ensures g1 == [g[0], g[1].(stmts := [Nop]), g[2], g[3]]
    ensures n.entry[0][A_ATOM] == 0 && ConstantAt(n, 0, A_ATOM) == None
  {
    FirstTestNumbered(g, g1, live, n, size, o);
    OneWayIn(g, lv, size, o, k0, k1, live);
    EntryLoaded(g, g1, live, n, size, o);
    SecondNumbered(g, g1, live, n, size, o);
    RestNumbered(g, g1, live, n, 2);
    RestNumbered(g, g1, live, n, 3);
  }

  /** The first test keeps everything, whatever it is finished against. */
  lemma FirstLosesNothing(b: Block, outUse: AtomSet, cx: Option<Word>, size: Size, o: Word, k0: Word)
    requires b == Block([LdAbs(size, o)], Jmp(Jeq, FromK, k0), 2, 1)
    ensures Lost(b, outUse, None, cx) == {}
  {
    PeepLeavesAlone(b, outUse, None, cx);
  }

  lemma LaterNeedNothing(m: Graph, lv: seq<int>, b: nat)
    requires |m| == 4 && Leveled(m, lv) && (forall i :: 0 <= i < 4 ==> lv[i] >= 0) && 0 < b < 4
    requires m[1].s.Jmp? && m[1].jt == 2 && m[1].jf == 3
    requires forall i :: 2 <= i < 4 ==> m[i].stmts == [] && m[i].s.RetK?
    ensures NeededAfter(m, lv, b) == {}
  {
    assert Needed(m, lv, 2) == {} && Needed(m, lv, 3) == {};
  }

  /** So nothing that matters is lost, though the second test has come to read what was dead before. */
  lemma TwiceSpared(g: Graph, lv: seq<int>, g1: Graph, live: set<nat>, n: Numbers, outUse: seq<AtomSet>, size: Size,
                    o: Word, k0: Word, k1: Word)
    requires TestsTwice(g, lv, size, o, k0, k1) && live == {0, 1, 2, 3} && Numbered(g, g1, 0, live, n, true)
    requires |outUse| == 4 && Leveled(g1, lv)
    ensures NothingLost(g1, lv, live, n, true, outUse)
  {
    TwiceNumbered(g, lv, g1, live, n, size, o, k0, k1);
    var m := Middle(g1, n, true, outUse);
    MiddleLeveled(g1, lv, n, true, outUse);
    FirstLosesNothing(g1[0], outUse[0], ConstantAt(n, 0, X_ATOM), size, o, k0);
    forall b | b in live ensures SparesAt(g1, m, lv, n, true, outUse, b) {
      if b > 0 {
        LaterNeedNothing(m, lv, b);
      }
    }
  }

  lemma SecondReadsMore(g: Graph, lv: seq<int>, g1: Graph, live: set<nat>, n: Numbers, outUse: seq<AtomSet>, size: Size,
                        o: Word, k0: Word, k1: Word)
    requires TestsTwice(g, lv, size, o, k0, k1) && live == {0, 1, 2, 3} && Numbered(g, g1, 0, live, n, true)
    requires |outUse| == 4 && outUse[1] == {}
    ensures !NoNewReads(g, g1, live, n, true, outUse)
  {
    TwiceNumbered(g, lv, g1, live, n, size, o, k0, k1);
    var m := Middle(g1, n, true, outUse);
    assert m[1].stmts == [] || m[1].stmts[1..] == [];
    assert g[1].stmts[1..] == [];
    assert A_ATOM in LiveIn(m[1].stmts, m[1].s, {}) && A_ATOM !in LiveIn(g[1].stmts, g[1].s, {});
  }

  lemma TwiceGenerated(g: Graph, lv: seq<int>, size: Size, o: Word, k0: Word, k1: Word)
    requires TestsTwice(g, lv, size, o, k0, k1)
    ensures Generated(g) && Rooted(g, lv, 0)
  {
    assert g[0].stmts[1..] == [] && g[1].stmts[1..] == [];
    forall b | 0 <= b < |g| ensures Closed(g[b].stmts, g[b].s, {}) && !g[b].s.RetA? {
      assert b == 0 || b == 1 || 2 <= b < 4;
    }
  }

  lemma NothingSpecial(b: Block, outUse: AtomSet, size: Size, o: Word)
    requires b.stmts in {[], [Nop], [LdAbs(size, o)]} && (b.s.Jmp? ==> b.s.jop.Jeq?)
    ensures !TestsAllBits(b, outUse) && FreshX(b.stmts, b.s, outUse, 0)
  {
  }

  lemma TwiceSweepable(g: Graph, lv: seq<int>, g1: Graph, live: set<nat>, n: Numbers, outUse: seq<AtomSet>, size: Size,
                       o: Word, k0: Word, k1: Word)
    requires TestsTwice(g, lv, size, o, k0, k1) && live == {0, 1, 2, 3} && Numbered(g, g1, 0, live, n, true)
    requires |outUse| == 4 && Leveled(g1, lv)
    ensures Sweepable(g, g1, lv, live, n, true, outUse)
    ensures var m := Middle(g1, n, true, outUse); forall i :: 0 <= i < 4 ==> !TestsAllBits(m[i], outUse[i])
  {
    var m := Middle(g1, n, true, outUse);
    TwiceNumbered(g, lv, g1, live, n, size, o, k0, k1);
    TwiceSpared(g, lv, g1, live, n, outUse, size, o, k0, k1);
    forall i | 0 <= i < 4 ensures !TestsAllBits(m[i], outUse[i]) && FreshX(m[i].stmts, m[i].s, outUse[i], 0) {
      NothingSpecial(m[i], outUse[i], size, o);
    }
    forall b | b in live ensures ReadsKnownAt(g, n, true, b) {
      assert NumberedWell(g, g1, 0, live, n, true, b);
    }
  }

  /** The first test runs on a packet long enough, and so does the second. */
  lemma SomePacketRuns(g: Graph, lv: seq<int>, size: Size, o: Word, k0: Word, k1: Word, b: nat)
    requires TestsTwice(g, lv, size, o, k0, k1) && b < 4
    ensures !AlwaysAborts(g[b].stmts)
  {
    var st: State, p := seq(18, _ => 0), LongPacket();
    Exec1(LdAbs(size, o), [], st, p);
    assert [LdAbs(size, o)] + [] == [LdAbs(size, o)];
    assert ExecAll(g[b].stmts, st, p).Some?;
  }

  /** The sweep leaves the second test without its load and keeps the verdict, although it goes by live-out sets
      by which the first load is dead. */
  method SweepIsRight(size: Size, o: Word, k0: Word, k1: Word, snaplen: Word)
    returns (g1: Graph, g2: Graph, ghost lv: seq<int>)
    ensures |g1| == |g2| == 4 && g1[1].stmts == [Nop]
    ensures var g := Twice(size, o, k0, k1, snaplen);
            && Leveled(g, lv) && Leveled(g2, lv) && lv[0] >= 0
            && forall st: State, p: Packet :: Run(g, lv, 0, st, p) != Abort ==>
                 Run(g2, lv, 0, st, p) == Run(g, lv, 0, st, p)
  {
    var g := Twice(size, o, k0, k1, snaplen);
    ghost var levels := [2, 1, 0, 0];
    g1, g2, lv := SweepTwice(g, size, o, k0, k1, levels);
  }

  method SweepTwice(g: Graph, ghost size: Size, ghost o: Word, ghost k0: Word, ghost k1: Word, ghost levels: seq<int>)
    returns (g1: Graph, g2: Graph, ghost lv: seq<int>)
    requires TestsTwice(g, levels, size, o, k0, k1)
    ensures |g1| == |g2| == 4 && g1[1].stmts == [Nop]
    ensures && Leveled(g, lv) && Leveled(g2, lv) && lv[0] >= 0
            && forall st: State, p: Packet :: Run(g, lv, 0, st, p) != Abort ==>
                 Run(g2, lv, 0, st, p) == Run(g, lv, 0, st, p)
  {
    TwiceGenerated(g, levels, size, o, k0, k1);
    TwoTestsLive(g);
    var ok, n, outUse;
    ghost var failed;
    ok, g1, g2, lv, n, outUse, failed := SweepPass(g, 0, true, levels);
    if !ok {
      SomePacketRuns(g, levels, size, o, k0, k1, failed);
      assert false;
    }
    TwiceKept(g, levels, g1, g2, lv, LiveBlocks(g, 0), n, outUse, size, o, k0, k1);
  }

  lemma TwiceKept(g: Graph, levels: seq<int>, g1: Graph, g2: Graph, lv: seq<int>, live: set<nat>, n: Numbers,
                  outUse: seq<AtomSet>, size: Size, o: Word, k0: Word, k1: Word)
    requires TestsTwice(g, levels, size, o, k0, k1) && IsLiveness(g, lv, live, outUse) && live == {0, 1, 2, 3}
    requires Numbered(g, g1, 0, live, n, true) && Leveled(g1, lv)
    requires Sweepable(g, g1, lv, live, n, true, outUse) ==>
               KeepsVerdictButAllBits(g, levels, g1, Middle(g1, n, true, outUse), g2, lv, outUse, 0)
    ensures |g1| == |g2| == 4 && g1[1].stmts == [Nop] && Leveled(g2, lv) && lv[0] >= 0
    ensures forall st: State, p: Packet :: Run(g, lv, 0, st, p) != Abort ==>
              Run(g2, lv, 0, st, p) == Run(g, lv, 0, st, p)
  {
    SameTestsLevels(g, levels, lv, live, outUse, size, o, k0, k1);
    TwiceNumbered(g, lv, g1, live, n, size, o, k0, k1);
    TwiceSweepable(g, lv, g1, live, n, outUse, size, o, k0, k1);
    TwiceVerdict(g, levels, g1, Middle(g1, n, true, outUse), g2, lv, live, outUse);
  }

  lemma SameTestsLevels(g: Graph, levels: seq<int>, lv: seq<int>, live: set<nat>, outUse: seq<AtomSet>, size: Size,
                        o: Word, k0: Word, k1: Word)
    requires TestsTwice(g, levels, size, o, k0, k1) && IsLiveness(g, lv, live, outUse) && live == {0, 1, 2, 3}
    ensures TestsTwice(g, lv, size, o, k0, k1)
  {
    forall b | 0 <= b < 4 ensures lv[b] >= 0 {
      assert b in live && outUse[b] == outUse[b];
    }
  }

  lemma TwiceVerdict(g: Graph, levels: seq<int>, g1: Graph, m: Graph, g2: Graph, lv: seq<int>, live: set<nat>,
                     outUse: seq<AtomSet>)
    requires KeepsVerdictButAllBits(g, levels, g1, m, g2, lv, outUse, 0) && Leveled(g, lv)
    requires SuccClosed(g1, live) && 0 in live
    requires forall i :: 0 <= i < |m| ==> !TestsAllBits(m[i], outUse[i])
    ensures forall st: State, p: Packet :: Run(g, lv, 0, st, p) != Abort ==>
              Run(g2, lv, 0, st, p) == Run(g, lv, 0, st, p)
  {
    forall st: State, p: Packet | Run(g, lv, 0, st, p) != Abort
      ensures Run(g2, lv, 0, st, p) == Run(g, lv, 0, st, p)
    {
      RunIgnoresLevels(g, lv, levels, 0, st, p);
      NoMasks(g1, m, lv, live, outUse, 0, st, p);
    }
  }
}
