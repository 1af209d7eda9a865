/** How many value numbers a pass may use, against what `opt_init` allocated before the first pass. */
module Allocation {
  import opened Machine
  import opened Layout

  /** Numbers that numbering the blocks of `s` among the first `n` can use: two a statement, one a block. */
  function Cost(g: Graph, s: set<nat>, n: nat): nat
    requires n <= |g|
  {
    if n == 0 then 0 else Cost(g, s, n - 1) + (if n - 1 in s then 2 * |Compact(g[n - 1].stmts)| + 1 else 0)
  }

  /** What `opt_init` allocates for the blocks of `s`: three numbers for each statement and branch. */
  function MaxVal(g: Graph, s: set<nat>, n: nat): nat
    requires n <= |g|
  {
    if n == 0 then 0 else MaxVal(g, s, n - 1) + (if n - 1 in s then 3 * (|Compact(g[n - 1].stmts)| + 1) else 0)
  }

  lemma {:induction false} CostAdd(g: Graph, s: set<nat>, b: nat, n: nat)
    requires n <= |g| && b !in s && b < |g|
    ensures Cost(g, s + {b}, n) == Cost(g, s, n) + (if b < n then 2 * |Compact(g[b].stmts)| + 1 else 0)
  {
    if n > 0 {
      CostAdd(g, s, b, n - 1);
    }
  }

  /** `g` with live blocks `s` is what is left of `g0` with live blocks `s0`: no new live block, and no
      block with more statements. */
  predicate LeftOf(g0: Graph, s0: set<nat>, g: Graph, s: set<nat>) {
    && |g| == |g0| && s <= s0 && (forall b :: b in s0 ==> b < |g0|)
    && forall b {:trigger g[b]} :: b in s ==> |Compact(g[b].stmts)| <= |Compact(g0[b].stmts)|
  }

  lemma LeftOfTrans(g0: Graph, s0: set<nat>, g1: Graph, s1: set<nat>, g2: Graph, s2: set<nat>)
    requires LeftOf(g0, s0, g1, s1) && LeftOf(g1, s1, g2, s2)
    ensures LeftOf(g0, s0, g2, s2)
  {
    forall b | b in s2 ensures |Compact(g2[b].stmts)| <= |Compact(g0[b].stmts)| {
      assert |Compact(g1[b].stmts)| <= |Compact(g0[b].stmts)|;
    }
  }

  lemma {:induction false} CostWithin(g0: Graph, s0: set<nat>, g: Graph, s: set<nat>, n: nat)
    requires LeftOf(g0, s0, g, s) && n <= |g|
    ensures Cost(g, s, n) <= MaxVal(g0, s0, n)
    ensures (exists b :: b in s && b < n) ==> Cost(g, s, n) < MaxVal(g0, s0, n)
  {
    if n > 0 {
      CostWithin(g0, s0, g, s, n - 1);
      if n - 1 in s {
        assert |Compact(g[n - 1].stmts)| <= |Compact(g0[n - 1].stmts)|;
      }
    }
  }

  /** Every later pass stays below the one allocation. */
  lemma NeverOverrun(g0: Graph, s0: set<nat>, g: Graph, s: set<nat>, used: nat, root: nat)
    requires LeftOf(g0, s0, g, s) && root in s && used <= Cost(g, s, |g|)
    ensures used < MaxVal(g0, s0, |g0|)
  {
    CostWithin(g0, s0, g, s, |g|);
  }
}
