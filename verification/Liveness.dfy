/** Use-def analysis: local sets (`compute_local_ud`), their propagation up the levels (`find_ud`),
    and what liveness means for runs. */
module Liveness {
  import opened Collections
  import opened Machine
  import opened Atoms
  import opened Levels

  type AtomSet = set<Atom>

  function DefSet(s: Stmt): AtomSet {
    if AtomDef(s).Some? then {AtomDef(s).value} else {}
  }

  /** The atoms a conditional branch reads; a return counts for nothing here, as in the source. */
  function JumpUse(s: Branch): AtomSet {
    if s.Jmp? then BranchUse(s) else {}
  }

  /** Liveness stated backwards: the atoms whose value on entry can matter, if `out` matter on exit. */
  function LiveIn(ss: seq<Stmt>, s: Branch, out: AtomSet): AtomSet {
    if ss == [] then out + JumpUse(s)
    else (LiveIn(ss[1..], s, out) - DefSet(ss[0])) + AtomUse(ss[0])
  }

  datatype Local = Local(def: AtomSet, use: AtomSet, kill: AtomSet)

  function Scan(l: Local, s: Stmt): Local {
    var use := l.use + (AtomUse(s) - l.def);
    Local(l.def + DefSet(s), use, l.kill + (DefSet(s) - use))
  }

  function ScanAll(l: Local, ss: seq<Stmt>): Local
    decreases ss
  {
    if ss == [] then l else ScanAll(Scan(l, ss[0]), ss[1..])
  }

  function WithJump(l: Local, s: Branch): Local {
    l.(use := l.use + (JumpUse(s) - l.def))
  }

  lemma {:induction false} ScanAppend(l: Local, ss: seq<Stmt>, s: Stmt)
    ensures ScanAll(l, ss + [s]) == Scan(ScanAll(l, ss), s)
    decreases ss
  {
    if ss == [] {
      assert ss + [s] == [s];
    } else {
      assert (ss + [s])[1..] == ss[1..] + [s];
      ScanAppend(Scan(l, ss[0]), ss[1..], s);
    }
  }

  /** `compute_local_ud`: one forward scan with the three sets. */
  method ComputeLocalUd(b: Block) returns (l: Local)
    ensures l == WithJump(ScanAll(Local({}, {}, {}), b.stmts), b.s)
  {
    var def: AtomSet, use: AtomSet, kill: AtomSet := {}, {}, {};
    for i := 0 to |b.stmts|
      invariant Local(def, use, kill) == ScanAll(Local({}, {}, {}), b.stmts[..i])
    {
      var s := b.stmts[i];
      assert b.stmts[..i + 1] == b.stmts[..i] + [s];
      ScanAppend(Local({}, {}, {}), b.stmts[..i], s);
      use := use + (AtomUse(s) - def);
      if AtomDef(s).Some? {
        var atom := AtomDef(s).value;
        if atom !in use {
          kill := kill + {atom};
        }
        def := def + {atom};
      }
    }
    assert b.stmts[..|b.stmts|] == b.stmts;
    if b.s.Jmp? {
      use := use + (BranchUse(b.s) - def);
    }
    l := Local(def, use, kill);
  }

  /** After scanning, an atom matters on entry if it was used first, or will matter and was not
      defined. */
  lemma {:induction false} ScanMeaning(l: Local, ss: seq<Stmt>, s: Branch, out: AtomSet)
    requires l.kill == l.def - l.use
    ensures var r := WithJump(ScanAll(l, ss), s);
            r.use + (out - r.kill) == l.use + (LiveIn(ss, s, out) - l.def)
    decreases ss
  {
    if ss == [] {
    } else {
      ScanMeaning(Scan(l, ss[0]), ss[1..], s, out);
    }
  }

  /** The forward scan computes liveness: `use` plus what is live out and not killed. */
  lemma LocalIsLive(b: Block, out: AtomSet)
    ensures var l := WithJump(ScanAll(Local({}, {}, {}), b.stmts), b.s);
            l.use + (out - l.kill) == LiveIn(b.stmts, b.s, out)
  {
    ScanMeaning(Local({}, {}, {}), b.stmts, b.s, out);
  }

  /** States that agree on what is live in agree, after the statements, on what is live out and on the
      branch. */
  lemma {:induction false} LiveExec(ss: seq<Stmt>, s: Branch, out: AtomSet, st1: State, st2: State, p: Packet)
    requires Agree(st1, st2, LiveIn(ss, s, out))
    ensures ExecAll(ss, st1, p).None? <==> ExecAll(ss, st2, p).None?
    ensures ExecAll(ss, st1, p).Some? ==> Agree(ExecAll(ss, st1, p).value, ExecAll(ss, st2, p).value, out + JumpUse(s))
    decreases ss
  {
    if ss != [] {
      ExecFrame(ss[0], st1, st2, p);
      if Exec(ss[0], st1, p).Some? {
        LiveExec(ss[1..], s, out, Exec(ss[0], st1, p).value, Exec(ss[0], st2, p).value, p);
      }
    }
  }

  /** A solution of the liveness equations on the levelled blocks. */
  predicate Solves(g: Graph, lv: seq<int>, inUse: seq<AtomSet>, outUse: seq<AtomSet>) {
    && |lv| == |g| && |inUse| == |g| && |outUse| == |g|
    && forall b :: 0 <= b < |g| && lv[b] >= 0 ==> SolvesAt(g, inUse, outUse, b)
  }

  predicate SolvesAt(g: Graph, inUse: seq<AtomSet>, outUse: seq<AtomSet>, b: nat)
    requires |inUse| == |g| && |outUse| == |g| && b < |g|
  {
    && inUse[b] == LiveIn(g[b].stmts, g[b].s, outUse[b])
    && if g[b].s.Jmp? then g[b].jt < |g| && g[b].jf < |g| && outUse[b] == inUse[g[b].jt] + inUse[g[b].jf]
       else outUse[b] == {}
  }

  /** Liveness of an acyclic graph: the atoms whose value on entry to `b` can matter. */
  function Needed(g: Graph, lv: seq<int>, b: nat): AtomSet
    requires Leveled(g, lv) && b < |g| && lv[b] >= 0
    decreases lv[b]
  {
    LiveIn(g[b].stmts, g[b].s, if g[b].s.Jmp? then Needed(g, lv, g[b].jt) + Needed(g, lv, g[b].jf) else {})
  }

  /** And on exit. */
  function NeededAfter(g: Graph, lv: seq<int>, b: nat): AtomSet
    requires Leveled(g, lv) && b < |g| && lv[b] >= 0
  {
    if g[b].s.Jmp? then Needed(g, lv, g[b].jt) + Needed(g, lv, g[b].jf) else {}
  }

  /** The liveness equations have no other solution. */
  lemma {:induction false} SolutionUnique(g: Graph, lv: seq<int>, inUse: seq<AtomSet>, outUse: seq<AtomSet>, b: nat)
    requires Leveled(g, lv) && Solves(g, lv, inUse, outUse) && b < |g| && lv[b] >= 0
    ensures inUse[b] == Needed(g, lv, b) && outUse[b] == NeededAfter(g, lv, b)
    decreases lv[b]
  {
    assert SolvesAt(g, inUse, outUse, b);
    if g[b].s.Jmp? {
      SolutionUnique(g, lv, inUse, outUse, g[b].jt);
      SolutionUnique(g, lv, inUse, outUse, g[b].jf);
    }
  }

  /** What is live in grows with what is live out. */
  lemma {:induction false} LiveInGrows(ss: seq<Stmt>, s: Branch, out: AtomSet, out': AtomSet)
    requires out <= out'
    ensures LiveIn(ss, s, out) <= LiveIn(ss, s, out')
  {
    if ss != [] {
      LiveInGrows(ss[1..], s, out, out');
    }
  }

  predicate DefinesA(ss: seq<Stmt>) {
    exists i :: 0 <= i < |ss| && AtomDef(ss[i]) == Some(A_ATOM)
  }

  /** `compute_local_ud` does not count what "return A" reads.  It is none the worse for it when the block
      defines A, or uses A before that. */
  predicate ReturnCovered(b: Block) {
    b.s.RetA? ==> DefinesA(b.stmts) || A_ATOM in LiveIn(b.stmts, b.s, {})
  }

  predicate ReturnsCovered(g: Graph, lv: seq<int>)
    requires |lv| == |g|
  {
    forall b :: 0 <= b < |g| && lv[b] >= 0 ==> ReturnCovered(g[b])
  }

  /** The outcome of a returning block. */
  function LeafOutcome(b: Block, st: State, p: Packet): Outcome
    requires !b.s.Jmp?
  {
    match ExecAll(b.stmts, st, p) case None => Abort case Some(t) => Finish(b.s, t)
  }

  lemma {:induction false} SameA(ss: seq<Stmt>, s: Branch, out: AtomSet, st1: State, st2: State, p: Packet)
    requires Agree(st1, st2, LiveIn(ss, s, out)) && (st1[A_ATOM] == st2[A_ATOM] || DefinesA(ss))
    requires ExecAll(ss, st1, p).Some? && ExecAll(ss, st2, p).Some?
    ensures ExecAll(ss, st1, p).value[A_ATOM] == ExecAll(ss, st2, p).value[A_ATOM]
    decreases ss
  {
    if ss != [] {
      ExecFrame(ss[0], st1, st2, p);
      if AtomDef(ss[0]) != Some(A_ATOM) && DefinesA(ss) {
        var i :| 0 <= i < |ss| && AtomDef(ss[i]) == Some(A_ATOM);
        assert ss[1..][i - 1] == ss[i];
        assert DefinesA(ss[1..]);
      }
      SameA(ss[1..], s, out, Exec(ss[0], st1, p).value, Exec(ss[0], st2, p).value, p);
    }
  }

  lemma LeafAgrees(b: Block, st1: State, st2: State, p: Packet)
    requires !b.s.Jmp? && ReturnCovered(b) && Agree(st1, st2, LiveIn(b.stmts, b.s, {}))
    ensures LeafOutcome(b, st1, p) == LeafOutcome(b, st2, p)
  {
    LiveExec(b.stmts, b.s, {}, st1, st2, p);
    if b.s.RetA? && ExecAll(b.stmts, st1, p).Some? {
      SameA(b.stmts, b.s, {}, st1, st2, p);
    }
  }

  /** A packet from which every load succeeds. */
  function LongPacket(): Packet {
    Packet((size, k) => Some(0), 0)
  }

  lemma {:induction false} WithoutDefiningA(ss: seq<Stmt>, st: State)
    requires !DefinesA(ss)
    ensures ExecAll(ss, st, LongPacket()).Some? && ExecAll(ss, st, LongPacket()).value[A_ATOM] == st[A_ATOM]
  {
    if ss != [] {
      assert AtomDef(ss[0]) != Some(A_ATOM);
      forall i | 0 <= i < |ss[1..]| ensures AtomDef(ss[1..][i]) != Some(A_ATOM) {
        assert ss[1..][i] == ss[i + 1];
      }
      WithoutDefiningA(ss[1..], Exec(ss[0], st, LongPacket()).value);
    }
  }

  /** At a block that returns A liveness is sound exactly when the return is covered. */
  lemma ReturnAExact(b: Block)
    requires b.s.RetA?
    ensures (forall st1: State, st2: State, p: Packet :: Agree(st1, st2, LiveIn(b.stmts, b.s, {})) ==>
               LeafOutcome(b, st1, p) == LeafOutcome(b, st2, p)) <==> ReturnCovered(b)
  {
    if ReturnCovered(b) {
      forall st1: State, st2: State, p: Packet | Agree(st1, st2, LiveIn(b.stmts, b.s, {}))
        ensures LeafOutcome(b, st1, p) == LeafOutcome(b, st2, p)
      {
        LeafAgrees(b, st1, st2, p);
      }
    } else {
      var st1: State := [0, 0, 0, 0, 0, 0, 0, 0, 0, 0, 0, 0, 0, 0, 0, 0, 0, 0];
      var st2: State := [0, 0, 0, 0, 0, 0, 0, 0, 0, 0, 0, 0, 0, 0, 0, 0, 1, 0];
      WithoutDefiningA(b.stmts, st1);
      WithoutDefiningA(b.stmts, st2);
      assert Agree(st1, st2, LiveIn(b.stmts, b.s, {}));
      assert LeafOutcome(b, st1, LongPacket()) != LeafOutcome(b, st2, LongPacket());
    }
  }

  /** Liveness is sound: the verdict from a block depends only on the atoms in its `in_use`. */
  lemma {:induction false} LivenessSound(g: Graph, lv: seq<int>, inUse: seq<AtomSet>, outUse: seq<AtomSet>, b: nat,
                                         st1: State, st2: State, p: Packet)
    requires Leveled(g, lv) && Solves(g, lv, inUse, outUse) && ReturnsCovered(g, lv)
    requires b < |g| && lv[b] >= 0 && Agree(st1, st2, inUse[b])
    ensures Run(g, lv, b, st1, p) == Run(g, lv, b, st2, p)
    decreases lv[b]
  {
    assert SolvesAt(g, inUse, outUse, b);
    LiveExec(g[b].stmts, g[b].s, outUse[b], st1, st2, p);
    if !g[b].s.Jmp? {
      LeafAgrees(g[b], st1, st2, p);
    } else if ExecAll(g[b].stmts, st1, p).Some? {
      var t1, t2 := ExecAll(g[b].stmts, st1, p).value, ExecAll(g[b].stmts, st2, p).value;
      assert t1[A_ATOM] == t2[A_ATOM] && (g[b].s.src.FromX? ==> t1[X_ATOM] == t2[X_ATOM]);
      LivenessSound(g, lv, inUse, outUse, if Taken(g[b].s, t1) then g[b].jt else g[b].jf, t1, t2, p);
    }
  }

  /** The sets `compute_local_ud` leaves at a block. */
  predicate LocalAt(g: Graph, kill: seq<AtomSet>, inUse: seq<AtomSet>, outUse: seq<AtomSet>, b: nat)
    requires b < |g| && |kill| == |inUse| == |outUse| == |g|
  {
    var l := WithJump(ScanAll(Local({}, {}, {}), g[b].stmts), g[b].s);
    kill[b] == l.kill && inUse[b] == l.use && outUse[b] == {}
  }

  /** A leaf's local sets already solve its equation. */
  lemma LeafSolved(g: Graph, kill: seq<AtomSet>, inUse: seq<AtomSet>, outUse: seq<AtomSet>, b: nat)
    requires b < |g| && |kill| == |inUse| == |outUse| == |g| && LocalAt(g, kill, inUse, outUse, b) && !g[b].s.Jmp?
    ensures SolvesAt(g, inUse, outUse, b)
  {
    LocalIsLive(g[b], {});
  }

  /** Propagating from solved successors solves a block. */
  lemma BlockSolved(g: Graph, kill: seq<AtomSet>, inUse: seq<AtomSet>, outUse: seq<AtomSet>, b: nat)
    requires b < |g| && |kill| == |inUse| == |outUse| == |g| && LocalAt(g, kill, inUse, outUse, b)
    requires g[b].s.Jmp? && g[b].jt < |g| && g[b].jf < |g| && g[b].jt != b && g[b].jf != b
    ensures var out := outUse[b] + (inUse[g[b].jt] + inUse[g[b].jf]);
            SolvesAt(g, inUse[b := inUse[b] + (out - kill[b])], outUse[b := out], b)
  {
    var out := outUse[b] + (inUse[g[b].jt] + inUse[g[b].jf]);
    assert out == inUse[g[b].jt] + inUse[g[b].jf];
    LocalIsLive(g[b], out);
  }

  /** Setting the sets of a block does not touch the equations of others no higher. */
  lemma StaysSolved(g: Graph, level: seq<int>, inUse: seq<AtomSet>, outUse: seq<AtomSet>, inP: AtomSet,
                    outP: AtomSet, b: nat, p: nat)
    requires |inUse| == |outUse| == |g| && b < |g| && p < |g| && b != p && Leveled(g, level)
    requires 0 <= level[b] <= level[p]
    requires SolvesAt(g, inUse, outUse, b)
    ensures SolvesAt(g, inUse[p := inP], outUse[p := outP], b)
  {
  }

  /** State of the sweep up the levels, after the first `j` blocks of level `i`. */
  predicate Propagated(g: Graph, level: seq<int>, list: seq<nat>, kill: seq<AtomSet>, inUse: seq<AtomSet>,
                       outUse: seq<AtomSet>, i: int, j: int)
    requires |kill| == |inUse| == |outUse| == |g| == |level| && 0 <= j <= |list| && ListOk(g, level, list, i)
  {
    && (forall b :: 0 <= b < |g| && level[b] > i ==> LocalAt(g, kill, inUse, outUse, b))
    && (forall k :: j <= k < |list| ==> LocalAt(g, kill, inUse, outUse, list[k]))
    && (forall k :: 0 <= k < j ==> SolvesAt(g, inUse, outUse, list[k]))
    && (forall b :: 0 <= b < |g| && 0 <= level[b] < i ==> SolvesAt(g, inUse, outUse, b))
  }

  lemma NextPropagated(g: Graph, level: seq<int>, list: seq<nat>, kill: seq<AtomSet>, in0: seq<AtomSet>,
                       out0: seq<AtomSet>, in1: seq<AtomSet>, out1: seq<AtomSet>, i: int, j: int)
    requires |kill| == |in0| == |out0| == |in1| == |out1| == |g| == |level| && 0 <= j < |list|
    requires ListOk(g, level, list, i)
    requires Leveled(g, level) && 0 <= i && Propagated(g, level, list, kill, in0, out0, i, j)
    requires SolvesAt(g, in1, out1, list[j])
    requires in1 == in0[list[j] := in1[list[j]]] && out1 == out0[list[j] := out1[list[j]]]
    ensures Propagated(g, level, list, kill, in1, out1, i, j + 1)
  {
    var p := list[j];
    forall k | 0 <= k < j ensures SolvesAt(g, in1, out1, list[k]) {
      StaysSolved(g, level, in0, out0, in1[p], out1[p], list[k], p);
    }
    forall b | 0 <= b < |g| && 0 <= level[b] < i ensures SolvesAt(g, in1, out1, b) {
      StaysSolved(g, level, in0, out0, in1[p], out1[p], b, p);
    }
  }

  class UseDef {
    const g: Graph
    var kill: seq<AtomSet>
    var inUse: seq<AtomSet>
    var outUse: seq<AtomSet>

    constructor (g: Graph)
      ensures this.g == g && |kill| == |inUse| == |outUse| == |g|
    {
      this.g := g;
      kill := seq(|g|, _ => {});
      inUse := seq(|g|, _ => {});
      outUse := seq(|g|, _ => {});
    }

    /** `find_ud`: local sets for every block, then in- and out-sets level by level from the leaves. */
    method FindUd(root: nat, level: seq<int>, levels: seq<seq<nat>>)
      requires LevelInv(g, level, levels) && Leveled(g, level) && root < |g|
      requires level[root] >= 0 && forall b :: 0 <= b < |g| ==> level[b] <= level[root]
      requires |kill| == |inUse| == |outUse| == |g|
      modifies this
      ensures |kill| == |inUse| == |outUse| == |g|
      ensures Solves(g, level, inUse, outUse)
    {
      assert level[root] < |levels|;
      for i := level[root] + 1 downto 0
        invariant |kill| == |inUse| == |outUse| == |g|
        invariant forall b :: 0 <= b < |g| && level[b] >= i ==> LocalAt(g, kill, inUse, outUse, b)
      {
        LocalLevel(i, level, levels);
      }
      forall b | 0 <= b < |g| && 0 <= level[b] < 1 ensures SolvesAt(g, inUse, outUse, b) {
        assert ExactLevel(g, level, b);
        LeafSolved(g, kill, inUse, outUse, b);
      }
      for i := 1 to level[root] + 1
        invariant |kill| == |inUse| == |outUse| == |g|
        invariant forall b :: 0 <= b < |g| && level[b] >= i ==> LocalAt(g, kill, inUse, outUse, b)
        invariant forall b :: 0 <= b < |g| && 0 <= level[b] < i ==> SolvesAt(g, inUse, outUse, b)
      {
        PropagateLevel(i, level, levels);
      }
    }

    method LocalLevel(i: nat, level: seq<int>, levels: seq<seq<nat>>)
      requires LevelInv(g, level, levels) && i < |levels| && |kill| == |inUse| == |outUse| == |g|
      requires forall b :: 0 <= b < |g| && level[b] > i ==> LocalAt(g, kill, inUse, outUse, b)
      modifies this
      ensures |kill| == |inUse| == |outUse| == |g|
      ensures forall b :: 0 <= b < |g| && level[b] >= i ==> LocalAt(g, kill, inUse, outUse, b)
    {
      var list := levels[i];
      assert ListOk(g, level, list, i);
      for j := 0 to |list|
        invariant |kill| == |inUse| == |outUse| == |g|
        invariant forall b :: 0 <= b < |g| && level[b] > i ==> LocalAt(g, kill, inUse, outUse, b)
        invariant forall k :: 0 <= k < j ==> LocalAt(g, kill, inUse, outUse, list[k])
      {
        var b := list[j];
        var l := ComputeLocalUd(g[b]);
        kill := kill[b := l.kill];
        inUse := inUse[b := l.use];
        outUse := outUse[b := {}];
      }
    }

    method PropagateLevel(i: nat, level: seq<int>, levels: seq<seq<nat>>)
      requires LevelInv(g, level, levels) && Leveled(g, level) && 0 < i < |levels|
      requires |kill| == |inUse| == |outUse| == |g|
      requires forall b :: 0 <= b < |g| && level[b] >= i ==> LocalAt(g, kill, inUse, outUse, b)
      requires forall b :: 0 <= b < |g| && 0 <= level[b] < i ==> SolvesAt(g, inUse, outUse, b)
      modifies this
      ensures |kill| == |inUse| == |outUse| == |g|
      ensures forall b :: 0 <= b < |g| && level[b] > i ==> LocalAt(g, kill, inUse, outUse, b)
      ensures forall b :: 0 <= b < |g| && 0 <= level[b] <= i ==> SolvesAt(g, inUse, outUse, b)
    {
      var list := levels[i];
      assert ListOk(g, level, list, i);
      for j := 0 to |list|
        invariant |kill| == |inUse| == |outUse| == |g| && Propagated(g, level, list, kill, inUse, outUse, i, j)
      {
        assert ExactLevel(g, level, list[j]);
        ghost var in0, out0 := inUse, outUse;
        PropagateBlock(list[j]);
        NextPropagated(g, level, list, kill, in0, out0, inUse, outUse, i, j);
      }
    }

    method PropagateBlock(p: nat)
      requires |kill| == |inUse| == |outUse| == |g| && p < |g| && LocalAt(g, kill, inUse, outUse, p)
      requires g[p].s.Jmp? && g[p].jt < |g| && g[p].jf < |g| && g[p].jt != p && g[p].jf != p
      modifies this`inUse, this`outUse
      ensures |inUse| == |outUse| == |g| && SolvesAt(g, inUse, outUse, p)
      ensures inUse == old(inUse)[p := inUse[p]] && outUse == old(outUse)[p := outUse[p]]
    {
      BlockSolved(g, kill, inUse, outUse, p);
      outUse := outUse[p := outUse[p] + (inUse[g[p].jt] + inUse[g[p].jf])];
      inUse := inUse[p := inUse[p] + (outUse[p] - kill[p])];
    }
  }
}
