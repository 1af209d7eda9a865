/** In a graph of self-contained blocks, what value numbers say about the outcome of branch tests. */
module BranchTests {
  import opened Collections
  import opened Machine
  import opened Atoms
  import opened ValueNumbers
  import opened Numbering
  import opened NumberingPass
  import opened LocalNumbers

  /** Numbers of a self-contained block explain what its branch reads, whatever block came before. */
  lemma BranchExplained(tbl: Table, val: Vals, ss: seq<Stmt>, s: Branch, on: set<Atom>, alter: bool, st: State,
                        p: Packet)
    requires Proper(tbl) && InTable(tbl, val) && Closed(ss, s, on) && Knows(val, on)
    requires forall a: Atom :: a in on ==> Meaning(tbl, val[a], p) == Some(st[a])
    requires ExecAll(ss, st, p).Some?
    ensures var r := OptStmts(VState(tbl, val), ss, alter);
            r.BDone? && Proper(r.vs.tbl) &&
            forall a: Atom :: a in on + BranchUse(s) ==>
              0 < r.vs.val[a] <= |r.vs.tbl| && Meaning(r.vs.tbl, r.vs.val[a], p) == Some(ExecAll(ss, st, p).value[a])
  {
    var m := Mask(val, on);
    BlockLocal(tbl, val, m, ss, s, on, alter);
    BlockKnown(VState(tbl, m), ss, s, on, alter);
    BlockRight(VState(tbl, m), ss, alter, st, p);
  }

  function Operand(s: Branch, st: State): Word
    requires s.Jmp?
  {
    if s.src.FromK? then s.k else st[X_ATOM]
  }

  /** A test that completes compares what its numbers stand for. */
  predicate TestExplained(g: Graph, n: Numbers, b: nat, base: State, p: Packet)
    requires Sized(g, n) && b < |g| && Proper(n.tbl) && g[b].s.Jmp?
  {
    match ExecAll(g[b].stmts, base, p)
    case None => true
    case Some(st) =>
      && 0 < n.exit[b][A_ATOM] <= |n.tbl| && Meaning(n.tbl, n.exit[b][A_ATOM], p) == Some(st[A_ATOM])
      && 0 < n.oval[b] <= |n.tbl| && Meaning(n.tbl, n.oval[b], p) == Some(Operand(g[b].s, st))
  }

  /** From the state in which the root leaves the shared slots, every live test is explained. */
  lemma TestsExplained(g: Graph, g': Graph, root: nat, live: set<nat>, shared: set<Atom>, n: Numbers, st: State,
                       p: Packet, b: nat)
    requires Numbered(g, g', root, live, n, false) && root in live && b in live && g[b].s.Jmp?
    requires SharedAt(g, root, shared, n, b)
    requires BlocksClosed(g, root, live, shared) && ExecAll(g[root].stmts, st, p).Some?
    ensures TestExplained(g, n, b, ExecAll(g[root].stmts, st, p).value, p)
  {
    var base := ExecAll(g[root].stmts, st, p).value;
    assert NumberedWell(g, g', root, live, n, false, b);
    GivenExplained(g, g', root, live, shared, n, st, p, b);
    if ExecAll(g[b].stmts, base, p).Some? {
      BranchExplained(n.starts[b], n.entry[b], g[b].stmts, g[b].s, Given(root, shared, b), false, base, p);
      TestFromEnd(g, n, b, base, p);
    }
  }

  /** What block `b` may rely on holds of the state in which the root leaves the shared slots. */
  lemma GivenExplained(g: Graph, g': Graph, root: nat, live: set<nat>, shared: set<Atom>, n: Numbers, st: State,
                       p: Packet, b: nat)
    requires Numbered(g, g', root, live, n, false) && root in live && b in live && SharedAt(g, root, shared, n, b)
    requires BlocksClosed(g, root, live, shared) && ExecAll(g[root].stmts, st, p).Some?
    ensures NumberedWell(g, g', root, live, n, false, b) && Proper(n.starts[b])
    ensures Knows(n.entry[b], Given(root, shared, b))
    ensures forall a: Atom :: a in Given(root, shared, b) ==>
              Meaning(n.starts[b], n.entry[b][a], p) == Some(ExecAll(g[root].stmts, st, p).value[a])
  {
    assert NumberedWell(g, g', root, live, n, false, root);
    assert NumberedWell(g, g', root, live, n, false, b);
    ProperPrefix(n.starts[b], n.tbl);
    BlockExplained(g, g', root, live, n, false, root, st, p);
    forall a: Atom | a in Given(root, shared, b)
      ensures Meaning(n.starts[b], n.entry[b][a], p) == Some(ExecAll(g[root].stmts, st, p).value[a])
    {
      MeaningStable(n.starts[b], n.tbl, n.entry[b][a], p);
    }
  }

  /** What the numbers at the end of a block explain, the final table explains too. */
  lemma TestFromEnd(g: Graph, n: Numbers, b: nat, base: State, p: Packet)
    requires Sized(g, n) && b < |g| && Proper(n.tbl) && g[b].s.Jmp? && ExecAll(g[b].stmts, base, p).Some?
    requires n.ends[b] <= n.tbl && Proper(n.ends[b]) && OperandAt(g, n, b)
    requires forall a: Atom :: a in BranchUse(g[b].s) ==>
               0 < n.exit[b][a] <= |n.ends[b]|
               && Meaning(n.ends[b], n.exit[b][a], p) == Some(ExecAll(g[b].stmts, base, p).value[a])
    ensures TestExplained(g, n, b, base, p)
  {
    assert A_ATOM in BranchUse(g[b].s);
    MeaningStable(n.ends[b], n.tbl, n.exit[b][A_ATOM], p);
    if g[b].s.src.FromX? {
      assert X_ATOM in BranchUse(g[b].s);
      MeaningStable(n.ends[b], n.tbl, n.exit[b][X_ATOM], p);
    }
  }
}
