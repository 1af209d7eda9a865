/** The pull-ups of `opt_blks`, over all blocks from the lowest level up, each with fresh levels, dominators,
    predecessor lists and numbers. */
module PullPass {
  import opened Machine
  import opened Atoms
  import opened Levels
  import opened Numbering
  import opened NumberingPass
  import opened Sweep
  import opened EdgeMoves
  import opened Pullup
  import opened Optimizer

  /** The verdicts agree on every packet on which no live block of `g` aborts. */
  ghost predicate AgreeUnlessAborts(g: Graph, lv: seq<int>, h: Graph, lv': seq<int>, root: nat) {
    && Leveled(g, lv) && Leveled(h, lv') && root < |g| == |h| && lv[root] >= 0 && lv'[root] >= 0
    && forall st: State, p: Packet ::
         Run(h, lv', root, st, p) == Run(g, lv, root, st, p) || SomeAbort(g, LiveBlocks(g, root), root, st, p)
  }

  /** What a pull keeps. */
  ghost predicate Kept(g: Graph, lv: seq<int>, h: Graph, lv': seq<int>, root: nat) {
    && Rooted(h, lv', root) && Generated(h) && SameTests(g, h) && Remains(g, h, root)
    && AgreeUnlessAborts(g, lv, h, lv', root)
  }

  lemma SameTestsGenerated(g: Graph, h: Graph)
    requires SameTests(g, h) && Generated(g)
    ensures Generated(h)
  {
    forall b | 0 <= b < |h| ensures Closed(h[b].stmts, h[b].s, {}) && !h[b].s.RetA? {
      assert Closed(g[b].stmts, g[b].s, {}) && !g[b].s.RetA?;
    }
  }

  lemma SameTestsRemain(g: Graph, h: Graph, root: nat, live: set<nat>)
    requires SameTests(g, h) && live == LiveBlocks(g, root) && root in live && SuccClosed(h, live)
    ensures Remains(g, h, root)
  {
    ShorterRemains(g, h, root, live);
  }

  lemma UntouchedWellFormed(g: Graph, h: Graph, live: set<nat>)
    requires WellFormed(g) && Untouched(g, h, live) && SuccClosed(h, live)
    ensures WellFormed(h)
  {
    forall b | 0 <= b < |h| && h[b].s.Jmp? ensures h[b].jt < |h| && h[b].jf < |h| {
      if b !in live {
        assert h[b] == g[b];
      }
    }
  }

  lemma FewerAborts(g: Graph, h: Graph, root: nat, st: State, p: Packet)
    requires SameTests(g, h) && Remains(g, h, root) && root < |g|
    ensures SomeAbort(h, LiveBlocks(h, root), root, st, p) ==> SomeAbort(g, LiveBlocks(g, root), root, st, p)
  {
    assert h[root].stmts == g[root].stmts;
    if SomeAbort(h, LiveBlocks(h, root), root, st, p) {
      var base := ExecAll(g[root].stmts, st, p).value;
      var b :| b in LiveBlocks(h, root) && b < |h| && ExecAll(h[b].stmts, base, p).None?;
      assert b in LiveBlocks(g, root) && ExecAll(g[b].stmts, base, p).None?;
    }
  }

  lemma KeptTwice(g: Graph, lv: seq<int>, g1: Graph, lv1: seq<int>, g2: Graph, lv2: seq<int>, root: nat)
    requires Kept(g, lv, g1, lv1, root) && Kept(g1, lv1, g2, lv2, root)
    ensures Kept(g, lv, g2, lv2, root)
  {
    forall b | 0 <= b < |g2| ensures g2[b].stmts == g[b].stmts && g2[b].s == g[b].s {
      assert g1[b].stmts == g[b].stmts;
    }
    RemainsTrans(g, g1, g2, root);
    forall st: State, p: Packet
      ensures Run(g2, lv2, root, st, p) == Run(g, lv, root, st, p) || SomeAbort(g, LiveBlocks(g, root), root, st, p)
    {
      FewerAborts(g, g1, root, st, p);
    }
  }

  lemma Relevel(g: Graph, lv: seq<int>, h: Graph, lv': seq<int>, level: seq<int>, root: nat, live: set<nat>)
    requires Leveled(g, lv) && Leveled(g, level) && Leveled(h, lv') && root < |g| == |h|
    requires lv[root] >= 0 && level[root] >= 0 && lv'[root] >= 0 && live == LiveBlocks(g, root)
    requires VerdictKept(g, level, h, lv', root, live)
    ensures AgreeUnlessAborts(g, lv, h, lv', root)
  {
    forall st: State, p: Packet
      ensures Run(h, lv', root, st, p) == Run(g, lv, root, st, p) || SomeAbort(g, live, root, st, p)
    {
      RunIgnoresLevels(g, lv, level, root, st, p);
    }
  }

  lemma KeptAsIs(g: Graph, lv: seq<int>, root: nat)
    requires Rooted(g, lv, root) && Generated(g)
    ensures Kept(g, lv, g, lv, root)
  {
  }

  /** What a pull goes by, and the walks it makes if it is made. */
  datatype Pulling = Pulling(level: seq<int>, levels: seq<seq<nat>>, dom: seq<set<nat>>, ins: seq<seq<nat>>, n: Numbers,
                             live: set<nat>, r1: seq<nat>, r2: seq<nat>)

  /** The numbers of A on exit. */
  function NumbersOfA(n: Numbers): (val: seq<nat>)
    ensures |val| == |n.exit|
  {
    seq(|n.exit|, i requires 0 <= i < |n.exit| => n.exit[i][A_ATOM])
  }

  /** Everything a pull goes by is that of `g`. */
  ghost predicate Current(g: Graph, root: nat, x: Pulling) {
    && Fresh(g, root, x.level, x.levels, x.dom, x.ins, x.live) && NumberingOf(g, g, root, x.n, false)
    && root < |g| && x.level[root] >= 0
    && forall b, k :: 0 <= b < |g| && 0 <= k < |x.ins[b]| ==> x.ins[b][k] < |g|
  }

  /** `h` is `g` after `or_pullup` (`or`) or `and_pullup` of block `b`: the pull is made exactly when its
      predecessors agree and both walks succeed. */
  ghost predicate PullStep(g: Graph, h: Graph, root: nat, b: nat, or: bool, x: Pulling) {
    && Current(g, root, x) && b < |g|
    && if x.level[b] < 0 || !g[b].s.Jmp? then h == g
       else if Wanted(g, x.level, x.dom, x.ins[b], NumbersOfA(x.n), or, b, x.r1, x.r2) then
         PulledBy(g, h, root, x.level, x.live, or, x.r1, x.r2)
       else h == g && forall r1, r2 :: !Wanted(g, x.level, x.dom, x.ins[b], NumbersOfA(x.n), or, b, r1, r2)
  }

  lemma InEdgesInside(g: Graph, live: set<nat>, ins: seq<seq<nat>>)
    requires InEdges(g, live, ins)
    ensures forall b, k :: 0 <= b < |g| && 0 <= k < |ins[b]| ==> ins[b][k] < |g|
  {
    forall b, k | 0 <= b < |g| && 0 <= k < |ins[b]| ensures ins[b][k] < |g| {
      Predecessors(g, live, ins, b, ins[b][k]);
    }
  }

  /** Levels, dominators, predecessor lists and numbers. */
  method Analyse(g: Graph, root: nat, ghost lv: seq<int>)
    returns (level: seq<int>, levels: seq<seq<nat>>, dom: seq<set<nat>>, ins: seq<seq<nat>>, n: Numbers,
             ghost live: set<nat>)
    requires Rooted(g, lv, root) && Generated(g)
    ensures Current(g, root, Pulling(level, levels, dom, ins, n, live, [], []))
    ensures BlocksClosed(g, root, live, {}) && live == LiveBlocks(g, root) && root in live && Are(level, live)
  {
    var an := new Analysis(g, root, lv);
    an.FindLevels();
    an.FindDom();
    level, levels, dom, live := an.level, an.levels, an.dom, an.done;
    var ok, g1;
    ghost var failed;
    ok, g1, n, failed := OptBlks(g, root, level, levels, live, false);
    NeverFails(g, root, live, failed);
    UnalteredGraph(g, g1, root, live, n);
    ins := FindInedges(g, root, level, levels, live);
    InEdgesInside(g, live, ins);
    GeneratedClosed(g, root, live);
  }

  /** One `or_pullup` or `and_pullup`. */
  method PullOne(g: Graph, root: nat, b: nat, or: bool, ghost lv: seq<int>)
    returns (h: Graph, ghost lv': seq<int>, pulled: bool, ghost x: Pulling)
    requires Rooted(g, lv, root) && Generated(g) && b < |g|
    ensures Kept(g, lv, h, lv', root) && (!pulled ==> h == g) && PullStep(g, h, root, b, or, x)
  {
    h, lv', pulled := g, lv, false;
    KeptAsIs(g, lv, root);
    var level, levels, dom, ins, n;
    ghost var live, r1, r2;
    level, levels, dom, ins, n, live := Analyse(g, root, lv);
    r1, r2 := [], [];
    if level[b] >= 0 && g[b].s.Jmp? {
      var puller := new Puller(g, root, level, levels, dom, ins, NumbersOfA(n), live, {});
      pulled, r1, r2 := puller.Pull(b, or);
      if pulled {
        h, lv' := puller.g, PulledLevelsOf(level, r1, r2);
        PullIsKept(g, h, root, lv, level, live, or, r1, r2);
      }
    }
    x := Pulling(level, levels, dom, ins, n, live, r1, r2);
    assert Current(g, root, x.(r1 := [], r2 := []));
  }

  /** The levels after a pull. */
  ghost function PulledLevelsOf(level: seq<int>, r1: seq<nat>, r2: seq<nat>): seq<int>
    requires |r1| > 0 && |r2| > 0 && r1[|r1| - 1] < |level| && r2[|r2| - 1] < |level|
  {
    NewLevels(level, r1[|r1| - 1], r2[|r2| - 1])
  }

  lemma PullIsKept(g: Graph, h: Graph, root: nat, lv: seq<int>, level: seq<int>, live: set<nat>, or: bool,
                   r1: seq<nat>, r2: seq<nat>)
    requires Rooted(g, lv, root) && Generated(g) && Leveled(g, level) && level[root] >= 0
    requires live == LiveBlocks(g, root) && root in live && PulledBy(g, h, root, level, live, or, r1, r2)
    requires r1[|r1| - 1] < |level| && r2[|r2| - 1] < |level|
    ensures Kept(g, lv, h, PulledLevelsOf(level, r1, r2), root)
  {
    SameTestsGenerated(g, h);
    SameTestsRemain(g, h, root, live);
    UntouchedWellFormed(g, h, live);
    Relevel(g, lv, h, PulledLevelsOf(level, r1, r2), level, root, live);
  }

  /** `or_pullup` and then `and_pullup` of one block, and the graph in between. */
  datatype Pair = Pair(mid: Graph, first: Pulling, second: Pulling)

  ghost predicate BothSteps(g: Graph, h: Graph, root: nat, b: nat, t: Pair) {
    PullStep(g, t.mid, root, b, true, t.first) && PullStep(t.mid, h, root, b, false, t.second)
  }

  /** `gs` are the graphs from `g` to `h` between the pulls of the blocks of `order`. */
  ghost predicate Pulls(g: Graph, h: Graph, root: nat, order: seq<nat>, gs: seq<Graph>, ts: seq<Pair>) {
    && |gs| == |ts| + 1 == |order| + 1 && gs[0] == g && gs[|ts|] == h
    && forall i :: 0 <= i < |ts| ==> BothSteps(gs[i], gs[i + 1], root, order[i], ts[i])
  }

  lemma PullsMore(g: Graph, h: Graph, h': Graph, root: nat, order: seq<nat>, gs: seq<Graph>, ts: seq<Pair>, b: nat,
                  t: Pair)
    requires Pulls(g, h, root, order, gs, ts) && BothSteps(h, h', root, b, t)
    ensures Pulls(g, h', root, order + [b], gs + [h'], ts + [t])
  {
  }

  function Flat(ls: seq<seq<nat>>): seq<nat> {
    if ls == [] then [] else Flat(ls[..|ls| - 1]) + ls[|ls| - 1]
  }

  lemma FlatNext(ls: seq<seq<nat>>, l: nat)
    requires 0 < l < |ls|
    ensures Flat(ls[1..l + 1]) == Flat(ls[1..l]) + ls[l]
  {
    assert ls[1..l + 1][..l - 1] == ls[1..l];
  }

  /** All pulls of a turn: the level lists of `g`, the graphs between and what each pull went by. */
  datatype Upward = Upward(level: seq<int>, levels: seq<seq<nat>>, gs: seq<Graph>, ts: seq<Pair>)

  /** `h` is `g` after `or_pullup` and `and_pullup` of every block above level 0, lowest level first. */
  ghost predicate PulledAll(g: Graph, h: Graph, root: nat, u: Upward) {
    && Levelled(g, root, u.level, u.levels, LiveBlocks(g, root)) && |u.levels| > 0
    && Pulls(g, h, root, Flat(u.levels[1..]), u.gs, u.ts)
  }

  /** Every block, lowest level first: `or_pullup`, then `and_pullup`. */
  method PullAll(g: Graph, root: nat, ghost lv: seq<int>)
    returns (h: Graph, ghost lv': seq<int>, done: bool, ghost u: Upward)
    requires Rooted(g, lv, root) && Generated(g)
    ensures Kept(g, lv, h, lv', root) && (done ==> h == g) && PulledAll(g, h, root, u)
  {
    h, lv', done := g, lv, true;
    KeptAsIs(g, lv, root);
    var an := new Analysis(g, root, lv);
    an.FindLevels();
    var levels := an.levels;
    ghost var level, gs, ts: seq<Pair> := an.level, [g], [];
    assert levels[1..1] == [];
    for l := 1 to |levels|
      invariant Kept(g, lv, h, lv', root) && (done ==> h == g) && Pulls(g, h, root, Flat(levels[1..l]), gs, ts)
    {
      h, lv', done, gs, ts := PullLevel(g, h, root, levels[l], lv, lv', done, Flat(levels[1..l]), gs, ts);
      FlatNext(levels, l);
    }
    assert levels[1..|levels|] == levels[1..];
    u := Upward(level, levels, gs, ts);
  }

  method PullLevel(ghost g: Graph, g1: Graph, root: nat, list: seq<nat>, ghost lv: seq<int>, ghost lv1: seq<int>,
                   done: bool, ghost order: seq<nat>, ghost gs: seq<Graph>, ghost ts: seq<Pair>)
    returns (h: Graph, ghost lv': seq<int>, done': bool, ghost gs': seq<Graph>, ghost ts': seq<Pair>)
    requires Kept(g, lv, g1, lv1, root) && (done ==> g1 == g) && Pulls(g, g1, root, order, gs, ts)
    requires forall k :: 0 <= k < |list| ==> list[k] < |g|
    ensures Kept(g, lv, h, lv', root) && (done' ==> h == g) && Pulls(g, h, root, order + list, gs', ts')
  {
    h, lv', done', gs', ts' := g1, lv1, done, gs, ts;
    assert order + list[..0] == order;
    for j := 0 to |list|
      invariant Kept(g, lv, h, lv', root) && (done' ==> h == g) && Pulls(g, h, root, order + list[..j], gs', ts')
    {
      h, lv', done', gs', ts' := PullNext(g, h, root, list[j], lv, lv', done', order + list[..j], gs', ts');
      assert order + list[..j] + [list[j]] == order + list[..j + 1];
    }
    assert list[..|list|] == list;
  }

  method PullNext(ghost g: Graph, g1: Graph, root: nat, b: nat, ghost lv: seq<int>, ghost lv1: seq<int>, done: bool,
                  ghost order: seq<nat>, ghost gs: seq<Graph>, ghost ts: seq<Pair>)
    returns (h: Graph, ghost lv': seq<int>, done': bool, ghost gs': seq<Graph>, ghost ts': seq<Pair>)
    requires Kept(g, lv, g1, lv1, root) && (done ==> g1 == g) && Pulls(g, g1, root, order, gs, ts) && b < |g|
    ensures Kept(g, lv, h, lv', root) && (done' ==> h == g) && Pulls(g, h, root, order + [b], gs', ts')
  {
    ghost var t;
    h, lv', done', t := PullBoth(g, g1, root, b, lv, lv1, done);
    PullsMore(g, g1, h, root, order, gs, ts, b, t);
    gs', ts' := gs + [h], ts + [t];
  }

  method PullBoth(ghost g: Graph, g1: Graph, root: nat, b: nat, ghost lv: seq<int>, ghost lv1: seq<int>, done: bool)
    returns (h: Graph, ghost lv': seq<int>, done': bool, ghost t: Pair)
    requires Kept(g, lv, g1, lv1, root) && (done ==> g1 == g) && b < |g1|
    ensures Kept(g, lv, h, lv', root) && (done' ==> h == g) && BothSteps(g1, h, root, b, t)
  {
    var h1, pulled, pulled';
    ghost var lv2, x, x';
    h1, lv2, pulled, x := PullOne(g1, root, b, true, lv1);
    KeptTwice(g, lv, g1, lv1, h1, lv2, root);
    h, lv', pulled', x' := PullOne(h1, root, b, false, lv2);
    KeptTwice(g, lv, h1, lv2, h, lv', root);
    done', t := done && !pulled && !pulled', Pair(h1, x, x');
  }
}
