/** Chains of tests that share a target: a disjunction or a conjunction, whose tests may be reordered. */
module TestChains {
  import opened Collections
  import opened Machine
  import opened ClosedGraph
  import opened EdgeMoves

  /** The shared target of a chain: the true one in a disjunction, the false one in a conjunction. */
  function Common(b: Block, or: bool): nat {
    if or then b.jt else b.jf
  }

  /** The other target, which continues the chain. */
  function Along(b: Block, or: bool): nat {
    if or then b.jf else b.jt
  }

  function WithAlong(b: Block, or: bool, n: nat): Block {
    if or then b.(jf := n) else b.(jt := n)
  }

  /** Block `k` of the chain branches to `t` or to the next one, the last to `t` or `rest`. */
  predicate Link(g: Graph, or: bool, chain: seq<nat>, t: nat, rest: nat, k: nat)
    requires k < |chain|
  {
    && chain[k] < |g| && g[chain[k]].s.Jmp? && Common(g[chain[k]], or) == t
    && Along(g[chain[k]], or) == if k == |chain| - 1 then rest else chain[k + 1]
  }

  predicate Chain(g: Graph, or: bool, chain: seq<nat>, t: nat, rest: nat) {
    && |chain| > 0
    && forall k {:trigger Link(g, or, chain, t, rest, k)} :: 0 <= k < |chain| ==> Link(g, or, chain, t, rest, k)
  }

  /** The test of block `x` leaves the chain. */
  predicate Hit(g: Graph, or: bool, x: nat, base: State, p: Packet) {
    x < |g| && g[x].s.Jmp? && TestResult(g[x], base, p) == Some(or)
  }

  predicate AnyHit(g: Graph, or: bool, xs: seq<nat>, base: State, p: Packet) {
    exists k :: 0 <= k < |xs| && Hit(g, or, xs[k], base, p)
  }

  predicate HaveLevels(lv: seq<int>, xs: seq<nat>) {
    forall k :: 0 <= k < |xs| ==> xs[k] < |lv| && lv[xs[k]] >= 0
  }

  predicate NoAborts(g: Graph, live: set<nat>, base: State, p: Packet) {
    forall b :: b in live && b < |g| ==> ExecAll(g[b].stmts, base, p).Some?
  }

  lemma ChainTail(g: Graph, or: bool, chain: seq<nat>, t: nat, rest: nat)
    requires Chain(g, or, chain, t, rest) && |chain| > 1
    ensures Chain(g, or, chain[1..], t, rest)
  {
    var tail := chain[1..];
    forall k | 0 <= k < |tail| ensures Link(g, or, tail, t, rest, k) {
      assert Link(g, or, chain, t, rest, k + 1);
    }
  }

  /** A chain that is left without an abort computes the disjunction (conjunction) of its tests. */
  lemma {:induction false} ChainDecides(g: Graph, lv: seq<int>, or: bool, chain: seq<nat>, t: nat, rest: nat,
                                        base: State, p: Packet)
    requires Leveled(g, lv) && Chain(g, or, chain, t, rest) && HaveLevels(lv, chain)
    ensures t < |g| && rest < |g| && 0 <= lv[t] && 0 <= lv[rest]
    ensures lv[rest] < lv[chain[0]] && lv[t] < lv[chain[0]]
    ensures Decide(g, lv, chain[0], base, p) != Abort ==>
              Decide(g, lv, chain[0], base, p) ==
              Decide(g, lv, if AnyHit(g, or, chain, base, p) then t else rest, base, p)
    decreases |chain|
  {
    var x := chain[0];
    assert Link(g, or, chain, t, rest, 0);
    assert TestResult(g[x], base, p).Some? ==>
             StepOf(g[x], base, p) == Goto(if Hit(g, or, x, base, p) then t else Along(g[x], or));
    if |chain| > 1 {
      var tail := chain[1..];
      ChainTail(g, or, chain, t, rest);
      assert forall k :: 0 <= k < |tail| ==> tail[k] == chain[k + 1];
      ChainDecides(g, lv, or, tail, t, rest, base, p);
      assert AnyHit(g, or, chain, base, p) <==> Hit(g, or, x, base, p) || AnyHit(g, or, tail, base, p) by {
        if AnyHit(g, or, tail, base, p) {
          var k :| 0 <= k < |tail| && Hit(g, or, tail[k], base, p);
          assert Hit(g, or, chain[k + 1], base, p);
        }
      }
    }
  }

  /** Levels fall along a chain. */
  lemma {:induction false} ChainFalls(g: Graph, lv: seq<int>, or: bool, chain: seq<nat>, t: nat, rest: nat, i: nat,
                                      j: nat)
    requires Leveled(g, lv) && Chain(g, or, chain, t, rest) && HaveLevels(lv, chain) && i < j < |chain|
    ensures lv[chain[j]] < lv[chain[i]]
    decreases j
  {
    assert Link(g, or, chain, t, rest, j - 1);
    if i < j - 1 {
      ChainFalls(g, lv, or, chain, t, rest, i, j - 1);
    }
  }

  lemma TargetsOutside(g: Graph, lv: seq<int>, or: bool, chain: seq<nat>, t: nat, rest: nat)
    requires Leveled(g, lv) && Chain(g, or, chain, t, rest) && HaveLevels(lv, chain)
    ensures t !in chain && rest !in chain
  {
    var last := |chain| - 1;
    forall k | 0 <= k < |chain| ensures chain[k] != t && chain[k] != rest {
      assert Link(g, or, chain, t, rest, last);
      if k < last {
        ChainFalls(g, lv, or, chain, t, rest, k, last);
      }
    }
  }

  function Retarget(b: Block, from: nat, to: nat): Block {
    if !b.s.Jmp? then b
    else b.(jt := if b.jt == from then to else b.jt, jf := if b.jf == from then to else b.jf)
  }

  /** `g'` is `g` with the tests of `chain`, entered only at its head, put in the order of `chain'`. */
  ghost predicate Reordered(g: Graph, g': Graph, live: set<nat>, or: bool, chain: seq<nat>, chain': seq<nat>,
                            t: nat, rest: nat) {
    && SameTests(g, g') && SuccClosed(g, live)
    && Chain(g, or, chain, t, rest) && Chain(g', or, chain', t, rest)
    && (forall x :: x in chain <==> x in chain') && (forall x :: x in chain ==> x in live)
    && forall y {:trigger g'[y]} :: y in live && y !in chain ==>
         && g'[y] == Retarget(g[y], chain[0], chain'[0])
         && (g[y].s.Jmp? ==> g[y].jt !in chain[1..] && g[y].jf !in chain[1..])
  }

  lemma SameHits(g: Graph, g': Graph, or: bool, chain: seq<nat>, chain': seq<nat>, base: State, p: Packet)
    requires SameTests(g, g') && (forall x :: x in chain <==> x in chain')
    ensures AnyHit(g, or, chain, base, p) == AnyHit(g', or, chain', base, p)
  {
    if AnyHit(g, or, chain, base, p) {
      var k :| 0 <= k < |chain| && Hit(g, or, chain[k], base, p);
      assert chain[k] in chain';
      var k' :| 0 <= k' < |chain'| && chain'[k'] == chain[k];
      assert Hit(g', or, chain'[k'], base, p);
    }
    if AnyHit(g', or, chain', base, p) {
      var k :| 0 <= k < |chain'| && Hit(g', or, chain'[k], base, p);
      assert chain'[k] in chain;
      var k' :| 0 <= k' < |chain| && chain[k'] == chain'[k];
      assert Hit(g, or, chain[k'], base, p);
    }
  }

  /** Reordering the tests of a chain keeps the verdict from every block outside it, unless one of the two
      runs aborts. */
  lemma {:induction false} ReorderedDecide(g: Graph, g': Graph, lv: seq<int>, lv': seq<int>, live: set<nat>,
                                           or: bool, chain: seq<nat>, chain': seq<nat>, t: nat, rest: nat, y: nat,
                                           base: State, p: Packet)
    requires Leveled(g, lv) && Leveled(g', lv')
    requires forall b :: b in live ==> b < |g| == |g'| && lv[b] >= 0 && lv'[b] >= 0
    requires Reordered(g, g', live, or, chain, chain', t, rest)
    requires y in live && y !in chain
    requires Decide(g, lv, y, base, p) != Abort && Decide(g', lv', y, base, p) != Abort
    ensures Decide(g', lv', y, base, p) == Decide(g, lv, y, base, p)
    decreases lv[y]
  {
    assert g'[y] == Retarget(g[y], chain[0], chain'[0]) && g'[y].stmts == g[y].stmts;
    if g[y].s.Jmp? {
      var n := StepOf(g[y], base, p).n;
      if n == chain[0] {
        assert StepOf(g'[y], base, p) == Goto(chain'[0]);
        ChainsDecide(g, g', lv, lv', live, or, chain, chain', t, rest, base, p);
        ReorderedDecide(g, g', lv, lv', live, or, chain, chain', t, rest,
                        if AnyHit(g, or, chain, base, p) then t else rest, base, p);
      } else {
        assert chain == [chain[0]] + chain[1..];
        ReorderedDecide(g, g', lv, lv', live, or, chain, chain', t, rest, n, base, p);
      }
    }
  }

  /** Both chains, entered at their heads and left without an abort, end in the same place. */
  lemma ChainsDecide(g: Graph, g': Graph, lv: seq<int>, lv': seq<int>, live: set<nat>, or: bool,
                     chain: seq<nat>, chain': seq<nat>, t: nat, rest: nat, base: State, p: Packet)
    requires Leveled(g, lv) && Leveled(g', lv')
    requires forall b :: b in live ==> b < |g| == |g'| && lv[b] >= 0 && lv'[b] >= 0
    requires Reordered(g, g', live, or, chain, chain', t, rest)
    ensures chain[0] in live && chain'[0] in live && t in live && rest in live && t !in chain && rest !in chain
    ensures lv[t] < lv[chain[0]] && lv[rest] < lv[chain[0]]
    ensures var n := if AnyHit(g, or, chain, base, p) then t else rest;
            && (Decide(g, lv, chain[0], base, p) != Abort ==>
                  Decide(g, lv, chain[0], base, p) == Decide(g, lv, n, base, p))
            && (Decide(g', lv', chain'[0], base, p) != Abort ==>
                  Decide(g', lv', chain'[0], base, p) == Decide(g', lv', n, base, p))
  {
    assert forall k :: 0 <= k < |chain| ==> chain[k] in chain;
    assert chain[0] in chain && chain'[0] in chain';
    forall k | 0 <= k < |chain'| ensures chain'[k] in live {
      assert chain'[k] in chain';
    }
    TargetsOutside(g, lv, or, chain, t, rest);
    SameHits(g, g', or, chain, chain', base, p);
    ChainDecides(g, lv, or, chain, t, rest, base, p);
    ChainDecides(g', lv', or, chain', t, rest, base, p);
    assert Link(g, or, chain, t, rest, |chain| - 1);
  }

  /** Where no block aborts no run does. */
  lemma {:induction false} NoAbortsDecide(g: Graph, lv: seq<int>, live: set<nat>, y: nat, base: State, p: Packet)
    requires Leveled(g, lv) && SuccClosed(g, live) && NoAborts(g, live, base, p)
    requires (forall b :: b in live ==> lv[b] >= 0) && y in live
    ensures Decide(g, lv, y, base, p) != Abort
    decreases lv[y]
  {
    if g[y].s.Jmp? {
      NoAbortsDecide(g, lv, live, StepOf(g[y], base, p).n, base, p);
    }
  }
}
