/** The first loop of the optimizer, `opt_loop(root, 0)`, for any number of turns: in each the statements are swept
    without being rewritten, then branches are moved and tests pulled up, each part with fresh analyses. */
module FirstLoop {
  import opened Machine
  import opened Liveness
  import opened Numbering
  import opened NumberingPass
  import opened PeepholePass
  import opened EdgeMoves
  import opened Pullup
  import opened Sweep
  import opened Allocation
  import opened Optimizer
  import opened PullPass

  /** What a turn went by: its graph and the live blocks, levels, numbers and live-out sets of that graph; what the
      sweep made of it, the branch moves, what they made of it, and the pull-ups. */
  datatype Record = Record(g: Graph, live: set<nat>, lv: seq<int>, n: Numbers, outUse: seq<AtomSet>, swept: Graph,
                           moving: Moving, moved: Graph, pulling: Upward)

  /** The turn from `g` to `h`: a sweep by the liveness and a numbering of `g` that rewrites nothing, then all
      branch moves, then all pull-ups. */
  ghost predicate TurnOf(g: Graph, root: nat, r: Record, h: Graph) {
    && r.g == g && r.live == LiveBlocks(g, root) && IsLiveness(g, r.lv, r.live, r.outUse)
    && NumberingOf(g, g, root, r.n, false)
    && SweptGraph(g, r.swept, r.live, r.n, false, r.outUse) && Untouched(g, r.swept, r.live)
    && MovedBy(r.swept, r.moved, root, r.moving) && PulledAll(r.moved, h, root, r.pulling)
    && Remains(g, r.swept, root) && Remains(r.swept, r.moved, root)
    && Remains(r.moved, h, root) && SameTests(r.moved, h) && WellFormed(h)
  }

  /** `gs` are the graphs from `g` to `h` between the turns. */
  ghost predicate Turns(g: Graph, h: Graph, root: nat, gs: seq<Graph>, rs: seq<Record>) {
    && |gs| == |rs| + 1 && gs[0] == g && gs[|rs|] == h
    && forall i :: 0 <= i < |rs| ==> TurnOf(gs[i], root, rs[i], gs[i + 1])
  }

  lemma TurnAt(g: Graph, h: Graph, root: nat, gs: seq<Graph>, rs: seq<Record>, i: nat)
    requires Turns(g, h, root, gs, rs) && i < |rs|
    ensures TurnOf(gs[i], root, rs[i], gs[i + 1])
  {
  }

  lemma TurnsMore(g: Graph, g1: Graph, h: Graph, root: nat, gs: seq<Graph>, rs: seq<Record>, r: Record)
    requires Turns(g, g1, root, gs, rs) && TurnOf(g1, root, r, h)
    ensures Turns(g, h, root, gs + [h], rs + [r])
  {
  }

  /** X is dead after the constant-index sequences of the graph swept. */
  ghost predicate FreshTurn(r: Record) {
    AllFreshX(r.g, r.live, r.outUse)
  }

  /** A run that the turn does right by: its tests of all bits find a bit, and no block aborts for the pull-ups to
      come upon. */
  ghost predicate Fine(r: Record, root: nat, st: State, p: Packet) {
    && Leveled(r.g, r.lv) && root < |r.g| == |r.outUse| == |r.moved| && r.lv[root] >= 0
    && SparesAllBits(r.g, r.g, r.lv, r.outUse, root, st, p)
    && !SomeAbort(r.moved, LiveBlocks(r.moved, root), root, st, p)
  }

  ghost predicate AllFine(rs: seq<Record>, root: nat, st: State, p: Packet) {
    forall i :: 0 <= i < |rs| ==> Fine(rs[i], root, st, p)
  }

  /** `h` gives the verdict of `g` on every run that does not abort and that all turns do right by. */
  ghost predicate KeepsFine(g: Graph, lv: seq<int>, h: Graph, lv': seq<int>, root: nat, rs: seq<Record>) {
    && Leveled(g, lv) && Leveled(h, lv') && root < |g| == |h| && lv[root] >= 0 && lv'[root] >= 0
    && forall st: State, p: Packet :: Run(g, lv, root, st, p) != Abort && AllFine(rs, root, st, p) ==>
         Run(h, lv', root, st, p) == Run(g, lv, root, st, p)
  }

  lemma UnemptiedMiddle(g: Graph, n: Numbers, outUse: seq<AtomSet>)
    requires Sized(g, n) && |outUse| == |g|
    ensures Middle(g, n, false, outUse) == g
  {
  }

  /** The three parts of a turn, put together. */
  lemma TurnKeeps(g: Graph, lv: seq<int>, g2: Graph, lv2: seq<int>, h: Graph, lv': seq<int>, root: nat, r: Record)
    requires KeepsVerdictButAllBits(g, lv, r.g, r.g, g2, r.lv, r.outUse, root)
    requires KeepsVerdict(g2, r.lv, r.moved, lv2, root) && AgreeUnlessAborts(r.moved, lv2, h, lv', root)
    ensures KeepsFine(g, lv, h, lv', root, [r])
  {
    forall st: State, p: Packet | Run(g, lv, root, st, p) != Abort && AllFine([r], root, st, p)
      ensures Run(h, lv', root, st, p) == Run(g, lv, root, st, p)
    {
      assert Fine([r][0], root, st, p);
    }
  }

  /** One turn. */
  method OneTurn(g: Graph, root: nat, ghost lv: seq<int>) returns (h: Graph, ghost lv': seq<int>, ghost r: Record)
    requires Rooted(g, lv, root) && Generated(g)
    ensures Rooted(h, lv', root) && Generated(h) && Remains(g, h, root) && TurnOf(g, root, r, h)
    ensures |r.n.tbl| <= Cost(g, LiveBlocks(g, root), |g|)
    ensures |r.moving.n.tbl| <= Cost(r.swept, LiveBlocks(r.swept, root), |g|)
    ensures FreshTurn(r) ==> KeepsFine(g, lv, h, lv', root, [r])
  {
    var ok, g1, g2, n, outUse;
    ghost var lv1, failed;
    ok, g1, g2, lv1, n, outUse, failed := SweepPass(g, root, false, lv);
    var h1, done;
    ghost var lv2, m, u;
    h1, lv2, m := MovePass(g2, root, lv1);
    h, lv', done, u := PullAll(h1, root, lv2);
    r := Record(g, LiveBlocks(g, root), lv1, n, outUse, g2, m, h1, u);
    RemainsTrans(g, g2, h1, root);
    RemainsTrans(g, h1, h, root);
    UnemptiedMiddle(g, n, outUse);
    if FreshTurn(r) {
      TurnKeeps(g, lv, g2, lv2, h, lv', root, r);
    }
  }

  lemma KeepsFineMore(g: Graph, lv: seq<int>, g1: Graph, lv1: seq<int>, h: Graph, lv': seq<int>, root: nat,
                      rs: seq<Record>, r: Record)
    requires KeepsFine(g, lv, g1, lv1, root, rs) && KeepsFine(g1, lv1, h, lv', root, [r])
    ensures KeepsFine(g, lv, h, lv', root, rs + [r])
  {
    forall st: State, p: Packet | Run(g, lv, root, st, p) != Abort && AllFine(rs + [r], root, st, p)
      ensures Run(h, lv', root, st, p) == Run(g, lv, root, st, p)
    {
      assert AllFine(rs, root, st, p) by {
        forall i | 0 <= i < |rs| ensures Fine(rs[i], root, st, p) { assert Fine((rs + [r])[i], root, st, p); }
      }
      assert Fine((rs + [r])[|rs|], root, st, p);
      assert AllFine([r], root, st, p);
    }
  }

  ghost predicate AllFresh(rs: seq<Record>) {
    forall i :: 0 <= i < |rs| ==> FreshTurn(rs[i])
  }

  lemma KeptFine(g: Graph, lv: seq<int>, g1: Graph, lv1: seq<int>, h: Graph, lv': seq<int>, root: nat,
                 rs: seq<Record>, r: Record)
    requires AllFresh(rs) ==> KeepsFine(g, lv, g1, lv1, root, rs)
    requires FreshTurn(r) ==> KeepsFine(g1, lv1, h, lv', root, [r])
    ensures AllFresh(rs + [r]) ==> KeepsFine(g, lv, h, lv', root, rs + [r])
  {
    if AllFresh(rs + [r]) {
      FreshBefore(rs, r);
      KeepsFineMore(g, lv, g1, lv1, h, lv', root, rs, r);
    }
  }

  /** Any number of turns: what is left stays a graph of self-contained blocks, every turn stays within the numbers
      allocated for the first graph, and the verdict is kept. */
  method Loop(g: Graph, root: nat, turns: nat, ghost lv: seq<int>)
    returns (h: Graph, ghost lv': seq<int>, ghost gs: seq<Graph>, ghost rs: seq<Record>)
    requires Rooted(g, lv, root) && Generated(g)
    ensures Rooted(h, lv', root) && Generated(h) && Remains(g, h, root)
    ensures |rs| == turns && Turns(g, h, root, gs, rs)
    ensures AllWithin(rs, MaxVal(g, LiveBlocks(g, root), |g|))
    ensures AllFresh(rs) ==> KeepsFine(g, lv, h, lv', root, rs)
  {
    h, lv', gs, rs := g, lv, [g], [];
    for i := 0 to turns
      invariant Rooted(h, lv', root) && Generated(h) && Remains(g, h, root) && |rs| == i && Turns(g, h, root, gs, rs)
      invariant AllWithin(rs, MaxVal(g, LiveBlocks(g, root), |g|))
      invariant AllFresh(rs) ==> KeepsFine(g, lv, h, lv', root, rs)
    {
      ghost var g1, lv1 := h, lv';
      ghost var r;
      h, lv', r := OneTurn(h, root, lv');
      TurnTaken(g, g1, h, root, gs, rs, r);
      KeptFine(g, lv, g1, lv1, h, lv', root, rs, r);
      gs, rs := gs + [h], rs + [r];
    }
  }

  /** Both numberings of the turn took fewer than `max` numbers. */
  predicate Within(r: Record, max: nat) {
    |r.n.tbl| < max && |r.moving.n.tbl| < max
  }

  predicate AllWithin(rs: seq<Record>, max: nat) {
    forall i :: 0 <= i < |rs| ==> Within(rs[i], max)
  }

  lemma TurnTaken(g: Graph, g1: Graph, h: Graph, root: nat, gs: seq<Graph>, rs: seq<Record>, r: Record)
    requires Turns(g, g1, root, gs, rs) && TurnOf(g1, root, r, h) && root < |g1|
    requires Remains(g, g1, root) && Remains(g1, h, root) && AllWithin(rs, MaxVal(g, LiveBlocks(g, root), |g|))
    requires |r.n.tbl| <= Cost(g1, LiveBlocks(g1, root), |g1|)
    requires |r.moving.n.tbl| <= Cost(r.swept, LiveBlocks(r.swept, root), |g1|)
    ensures Turns(g, h, root, gs + [h], rs + [r]) && Remains(g, h, root)
    ensures AllWithin(rs + [r], MaxVal(g, LiveBlocks(g, root), |g|))
  {
    TurnsMore(g, g1, h, root, gs, rs, r);
    StaysWithin(g, g1, h, root, r);
    RemainsTrans(g, g1, h, root);
  }

  lemma StaysWithin(g: Graph, g1: Graph, h: Graph, root: nat, r: Record)
    requires Remains(g, g1, root) && TurnOf(g1, root, r, h) && root < |g1|
    requires |r.n.tbl| <= Cost(g1, LiveBlocks(g1, root), |g1|)
    requires |r.moving.n.tbl| <= Cost(r.swept, LiveBlocks(r.swept, root), |g1|)
    ensures Within(r, MaxVal(g, LiveBlocks(g, root), |g|))
  {
    RemainsTrans(g, g1, r.swept, root);
    RootIsLive(g1, root);
    RootIsLive(r.swept, root);
    NeverOverrun(g, LiveBlocks(g, root), g1, LiveBlocks(g1, root), |r.n.tbl|, root);
    NeverOverrun(g, LiveBlocks(g, root), r.swept, LiveBlocks(r.swept, root), |r.moving.n.tbl|, root);
  }

  lemma FreshBefore(rs: seq<Record>, r: Record)
    requires AllFresh(rs + [r])
    ensures AllFresh(rs) && FreshTurn(r)
  {
    forall i | 0 <= i < |rs| ensures FreshTurn(rs[i]) {
      assert FreshTurn((rs + [r])[i]);
    }
    assert FreshTurn((rs + [r])[|rs|]);
  }
}
