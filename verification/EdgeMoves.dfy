/** Redirecting one edge of a graph of self-contained blocks, and when that keeps the verdict. */
module EdgeMoves {
  import opened Collections
  import opened Machine
  import opened Atoms
  import opened Paths
  import opened Levels
  import opened ClosedGraph
  import opened NumberingPass

  /** The outcome of a block's test when entered in state `base`; `None` if it aborts. */
  function TestResult(b: Block, base: State, p: Packet): Option<bool>
    requires b.s.Jmp?
  {
    match ExecAll(b.stmts, base, p)
    case None => None
    case Some(st) => Some(Taken(b.s, st))
  }

  /** `h` has the blocks of `g`, up to where their edges lead. */
  predicate SameTests(g: Graph, h: Graph) {
    |h| == |g| && forall b {:trigger h[b]} :: 0 <= b < |h| ==> h[b].stmts == g[b].stmts && h[b].s == g[b].s
  }

  function Redirect(h: Graph, e: nat, d: nat): Graph
    requires e < 2 * |h|
  {
    if e < |h| then h[e := h[e].(jt := d)] else h[e - |h| := h[e - |h|].(jf := d)]
  }

  /** Edge `e` leaves its block on the side the block's test selects. */
  predicate Selected(g: Graph, e: nat, base: State, p: Packet)
    requires e < 2 * |g|
  {
    g[Pred(|g|, e)].s.Jmp? && TestResult(g[Pred(|g|, e)], base, p) == Some(e < |g|)
  }

  /** A path of edges on which every test selects the edge. */
  ghost predicate Travelled(g: Graph, root: nat, path: seq<nat>, e: nat, base: State, p: Packet) {
    && Leads(EdgeRel(g), EdgesOf(|g|, root), path, e)
    && forall k :: 0 <= k < |path| ==> path[k] < 2 * |g| && Selected(g, path[k], base, p)
  }

  /** Whenever a run gets to edge `e`, the block after it can only go on to `d` (or abort). */
  ghost predicate Forced(g: Graph, h: Graph, root: nat, e: nat, d: nat, base: State, p: Packet)
    requires e < 2 * |h| && Succ(h, e) < |h|
  {
    forall path :: Travelled(g, root, path, e, base, p) ==>
      StepOf(h[Succ(h, e)], base, p) == Goto(d) || StepOf(h[Succ(h, e)], base, p) == Stop(Abort)
  }

  /** Changing an edge does not show below it. */
  lemma {:induction false} DecideBelow(h: Graph, h': Graph, lv: seq<int>, b: nat, x: nat, base: State, p: Packet)
    requires Leveled(h, lv) && Leveled(h', lv) && b < |h| && lv[b] >= 0
    requires forall c :: 0 <= c < |h| && c != b ==> h'[c] == h[c]
    requires x < |h| && 0 <= lv[x] && x != b && lv[x] <= lv[b]
    ensures Decide(h', lv, x, base, p) == Decide(h, lv, x, base, p)
    decreases lv[x]
  {
    match StepOf(h[x], base, p)
    case Stop(_) =>
    case Goto(n) => DecideBelow(h, h', lv, b, n, base, p);
  }

  /** Where a run that has come along `path` stands. */
  ghost predicate At(g: Graph, root: nat, path: seq<nat>, cur: nat, base: State, p: Packet) {
    if path == [] then cur == root
    else
      var last := path[|path| - 1];
      Travelled(g, root, path, last, base, p) && Succ(g, last) == cur
  }

  lemma Travel(g: Graph, root: nat, path: seq<nat>, cur: nat, e: nat, base: State, p: Packet)
    requires At(g, root, path, cur, base, p) && e < 2 * |g| && Pred(|g|, e) == cur && Selected(g, e, base, p)
    ensures Travelled(g, root, path + [e], e, base, p)
  {
    if path == [] {
      assert path + [e] == [e];
    } else {
      ExtendPath(EdgeRel(g), EdgesOf(|g|, root), path, path[|path| - 1], e);
    }
  }

  /** The edges of `h` above edge `e` are those of `g`. */
  predicate SameAbove(g: Graph, h: Graph, lv: seq<int>, l: int) {
    |g| == |h| == |lv| && forall b {:trigger h[b]} :: 0 <= b < |h| && lv[b] > l ==> h[b] == g[b]
  }

  predicate Redirectable(h: Graph, lv: seq<int>, e: nat, d: nat) {
    && e < 2 * |h| && Leveled(h, lv) && Leveled(Redirect(h, e, d), lv)
    && lv[Pred(|h|, e)] >= 0 && h[Pred(|h|, e)].s.Jmp?
  }

  /** The edge by which a block is left. */
  function Leaving(h: Graph, b: nat, base: State, p: Packet): nat
    requires b < |h| && StepOf(h[b], base, p).Goto?
  {
    if Taken(h[b].s, ExecAll(h[b].stmts, base, p).value) then b else |h| + b
  }

  lemma RedirectHere(g: Graph, h: Graph, lv: seq<int>, root: nat, e: nat, d: nat, path: seq<nat>, base: State,
                     p: Packet)
    requires Redirectable(h, lv, e, d) && Forced(g, h, root, e, d, base, p)
    requires var b := Pred(|h|, e);
             StepOf(h[b], base, p).Goto? && Decide(h, lv, b, base, p) != Abort &&
             (Leaving(h, b, base, p) == e ==> Travelled(g, root, path, e, base, p))
    ensures Decide(Redirect(h, e, d), lv, Pred(|h|, e), base, p) == Decide(h, lv, Pred(|h|, e), base, p)
  {
    var h', b := Redirect(h, e, d), Pred(|h|, e);
    var n := StepOf(h[b], base, p).n;
    if Leaving(h, b, base, p) == e {
      assert n == Succ(h, e) && StepOf(h[n], base, p) == Goto(d) && StepOf(h'[b], base, p) == Goto(d);
      DecideBelow(h, h', lv, b, d, base, p);
    } else {
      assert StepOf(h'[b], base, p) == Goto(n);
      DecideBelow(h, h', lv, b, n, base, p);
    }
  }

  /** Redirecting a forced edge keeps every verdict that is not an abort, provided the blocks above it
      still are as they were when the paths were determined. */
  lemma {:induction false} RedirectWalk(g: Graph, h: Graph, lv: seq<int>, root: nat, e: nat, d: nat, path: seq<nat>,
                                        cur: nat, base: State, p: Packet)
    requires SameTests(g, h) && Redirectable(h, lv, e, d) && SameAbove(g, h, lv, lv[Pred(|h|, e)])
    requires cur < |h| && lv[cur] >= 0 && At(g, root, path, cur, base, p)
    requires Forced(g, h, root, e, d, base, p) && Decide(h, lv, cur, base, p) != Abort
    ensures Decide(Redirect(h, e, d), lv, cur, base, p) == Decide(h, lv, cur, base, p)
    decreases lv[cur]
  {
    var h', b := Redirect(h, e, d), Pred(|h|, e);
    if cur != b {
      assert h'[cur] == h[cur];
    }
    if StepOf(h[cur], base, p).Goto? {
      var e' := Leaving(h, cur, base, p);
      if lv[cur] > lv[b] {
        assert h[cur] == g[cur];
        Travel(g, root, path, cur, e', base, p);
        RedirectWalk(g, h, lv, root, e, d, path + [e'], StepOf(h[cur], base, p).n, base, p);
      } else if cur == b {
        if e' == e {
          assert h[cur].stmts == g[cur].stmts;
          Travel(g, root, path, cur, e, base, p);
        }
        RedirectHere(g, h, lv, root, e, d, path + [e], base, p);
      } else {
        DecideBelow(h, h', lv, b, cur, base, p);
      }
    }
  }

  /** Moving edges leaves blocks self-contained. */
  lemma SameTestsClosed(g: Graph, h: Graph, root: nat, live: set<nat>, shared: set<Atom>)
    requires SameTests(g, h) && root < |g| && (forall b :: b in live ==> b < |g|) && BlocksClosed(g, root, live, shared)
    ensures BlocksClosed(h, root, live, shared)
  {
    assert h[root].stmts == g[root].stmts && h[root].s == g[root].s;
    forall b | b in live && b != root ensures BlockClosed(h[b], shared) {
      assert BlockClosed(g[b], shared) && h[b].stmts == g[b].stmts && h[b].s == g[b].s;
    }
  }

  /** The state that stands for all others: the one in which the root leaves the shared slots. */
  lemma RunIsDecideFromRoot(g: Graph, lv: seq<int>, root: nat, live: set<nat>, shared: set<Atom>, st: State, p: Packet)
    requires Leveled(g, lv) && SuccClosed(g, live) && root in live && (forall b :: b in live ==> lv[b] >= 0)
    requires BlocksClosed(g, root, live, shared) && (forall q :: q in live ==> !BlockRel(g)(q, root))
    requires ExecAll(g[root].stmts, st, p).Some?
    ensures Run(g, lv, root, st, p) == Decide(g, lv, root, ExecAll(g[root].stmts, st, p).value, p)
  {
    var base := ExecAll(g[root].stmts, st, p).value;
    StepIndependent(g[root], {}, st, base, p);
    if g[root].s.Jmp? {
      var n := if Taken(g[root].s, base) then g[root].jt else g[root].jf;
      assert BlockRel(g)(root, n);
      BelowRootIsDecide(g, lv, root, live, shared, n, base, base, p);
    }
  }

  lemma {:induction false} BelowRootIsDecide(g: Graph, lv: seq<int>, root: nat, live: set<nat>, shared: set<Atom>,
                                             b: nat, st: State, base: State, p: Packet)
    requires Leveled(g, lv) && SuccClosed(g, live) && root in live && (forall c :: c in live ==> lv[c] >= 0)
    requires BlocksClosed(g, root, live, shared) && (forall q :: q in live ==> !BlockRel(g)(q, root))
    requires b in live && b != root && Agree(st, base, shared)
    ensures Run(g, lv, b, st, p) == Decide(g, lv, b, base, p)
    decreases lv[b]
  {
    StepIndependent(g[b], shared, st, base, p);
    match ExecAll(g[b].stmts, st, p)
    case None =>
    case Some(st') =>
      if g[b].s.Jmp? {
        var n := if Taken(g[b].s, st') then g[b].jt else g[b].jf;
        assert BlockRel(g)(b, n);
        BelowRootIsDecide(g, lv, root, live, shared, n, st', base, p);
      }
  }
}
