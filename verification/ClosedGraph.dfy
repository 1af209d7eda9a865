/** Graphs whose blocks are self-contained, as the code generator makes them: a block reads only
    atoms it has written itself, or atoms of a fixed set `shared` that no block writes.  Such a graph
    can be run without carrying registers from block to block. */
module ClosedGraph {
  import opened Machine
  import opened Atoms

  predicate Preserves(ss: seq<Stmt>, shared: set<Atom>) {
    forall i :: 0 <= i < |ss| && AtomDef(ss[i]).Some? ==> AtomDef(ss[i]).value !in shared
  }

  predicate BlockClosed(b: Block, shared: set<Atom>) {
    Closed(b.stmts, b.s, shared) && Preserves(b.stmts, shared)
  }

  predicate GraphClosed(g: Graph, lv: seq<int>, shared: set<Atom>) {
    && Leveled(g, lv)
    && forall b :: 0 <= b < |g| && lv[b] >= 0 ==> BlockClosed(g[b], shared)
  }

  /** What a block does when entered in state `base`. */
  datatype Step = Stop(o: Outcome) | Goto(n: nat)

  function StepOf(b: Block, base: State, p: Packet): Step {
    match ExecAll(b.stmts, base, p)
    case None => Stop(Abort)
    case Some(st) =>
      if !b.s.Jmp? then Stop(Finish(b.s, st)) else Goto(if Taken(b.s, st) then b.jt else b.jf)
  }

  /** The register-free run: every block is entered in the same state. */
  function Decide(g: Graph, lv: seq<int>, b: nat, base: State, p: Packet): Outcome
    requires Leveled(g, lv) && b < |g| && lv[b] >= 0
    decreases lv[b]
  {
    match StepOf(g[b], base, p)
    case Stop(o) => o
    case Goto(n) => Decide(g, lv, n, base, p)
  }

  lemma {:induction false} PreservesExec(ss: seq<Stmt>, shared: set<Atom>, st: State, p: Packet)
    requires Preserves(ss, shared)
    ensures ExecAll(ss, st, p).Some? ==> Agree(st, ExecAll(ss, st, p).value, shared)
  {
    if ss != [] && Exec(ss[0], st, p).Some? {
      ExecFrame(ss[0], st, st, p);
      forall i | 0 <= i < |ss[1..]| && AtomDef(ss[1..][i]).Some? ensures AtomDef(ss[1..][i]).value !in shared {
        assert ss[1..][i] == ss[i + 1];
      }
      PreservesExec(ss[1..], shared, Exec(ss[0], st, p).value, p);
    }
  }

  lemma StepIndependent(b: Block, shared: set<Atom>, st: State, base: State, p: Packet)
    requires BlockClosed(b, shared) && Agree(st, base, shared)
    ensures StepOf(b, st, p) == StepOf(b, base, p)
    ensures ExecAll(b.stmts, st, p).Some? ==> Agree(ExecAll(b.stmts, st, p).value, base, shared)
  {
    ClosedExec(b.stmts, b.s, shared, st, base, p);
    PreservesExec(b.stmts, shared, st, p);
  }

  /** In a closed graph the machine's run and the register-free run agree. */
  lemma {:induction false} RunIsDecide(g: Graph, lv: seq<int>, shared: set<Atom>, b: nat, st: State, base: State,
                                       p: Packet)
    requires GraphClosed(g, lv, shared) && b < |g| && lv[b] >= 0 && Agree(st, base, shared)
    ensures Run(g, lv, b, st, p) == Decide(g, lv, b, base, p)
    decreases lv[b]
  {
    StepIndependent(g[b], shared, st, base, p);
    match ExecAll(g[b].stmts, st, p)
    case None =>
    case Some(st') =>
      if g[b].s.Jmp? {
        RunIsDecide(g, lv, shared, if Taken(g[b].s, st') then g[b].jt else g[b].jf, st', base, p);
      }
  }
}
