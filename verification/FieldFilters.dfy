/** Filters that combine comparisons of fields in any way: the second loop is right on them too, for any number of
    turns, and so is the whole compiler.  In the second loop a test may come to rely on the field that all its
    predecessors leave in A; none of them then gives A up. */
module FieldFilters {
  import opened Collections
  import opened Machine
  import opened Paths
  import opened Levels
  import opened Layout
  import opened Liveness
  import opened ValueNumbers
  import opened Numbering
  import opened NumberingPass
  import opened Peephole
  import opened PeepholePass
  import opened Sweep
  import opened SweptClosed
  import opened Optimizer
  import opened FirstLoop
  import opened PlainFilters
  import opened FieldBlocks
  import opened FrameTests
  import opened BpfOptimize
  import F = FilterExpr
  import P = Backpatch

  predicate FieldTests(e: F.Expr) {
    match e
    case Leaf(t) => FieldStmts(t.stmts) && FieldBranch(t.s)
    case Not(e1) => FieldTests(e1)
    case Conj(l, r) => FieldTests(l) && FieldTests(r)
    case Disj(l, r) => FieldTests(l) && FieldTests(r)
  }

  ghost predicate FieldGraph(g: Graph, root: nat) {
    forall b {:trigger g[b]} :: b in LiveBlocks(g, root) && b < |g| ==> FieldBlock(g[b])
  }

  /** Edge `q`, `b` leaves A with the key `b` counts on, if it does. */
  predicate Provides(g: Graph, keys: seq<Option<Key>>, q: nat, b: nat) {
    q < |g| == |keys| && b < |g| && (keys[b].Some? ==> KeyAfter(g[q].stmts, keys[q]) == keys[b])
  }

  /** `keys` says for every block that reads A what its predecessors leave there. */
  ghost predicate Annotated(g: Graph, root: nat, keys: seq<Option<Key>>) {
    && |keys| == |g| && root < |g| && keys[root] == None
    && (forall b {:trigger g[b]} :: b in LiveBlocks(g, root) && b < |g| && ReadsA(g[b].stmts, g[b].s) ==>
          keys[b].Some?)
    && forall q: nat, b: nat {:trigger Provides(g, keys, q, b)} ::
         q in LiveBlocks(g, root) && b in LiveBlocks(g, root) && BlockRel(g)(q, b) ==> Provides(g, keys, q, b)
  }

  function Highest(lv: seq<int>): (m: int)
    ensures forall i :: 0 <= i < |lv| ==> lv[i] <= m
  {
    if lv == [] then 0
    else
      var m := Highest(lv[..|lv| - 1]);
      if lv[|lv| - 1] > m then lv[|lv| - 1] else m
  }

  /** Every reachable block but the root has a reachable predecessor. */
  lemma ReachedFrom(g: Graph, root: nat, b: nat)
    requires b in LiveBlocks(g, root) && b != root
    ensures exists q: nat :: q in LiveBlocks(g, root) && BlockRel(g)(q, b)
  {
    var path :| Leads(BlockRel(g), Only(root), path, b);
    var q := ShortenPath(BlockRel(g), Only(root), path, b);
    assert q in LiveBlocks(g, root) by { assert Reach(BlockRel(g), Only(root), q); }
  }

  /** What numbering knows of A on entry. */
  ghost function Keys(n: Numbers, size: nat): (keys: seq<Option<Key>>)
    requires |n.entry| == size
    ensures |keys| == size && forall b :: 0 <= b < size ==> keys[b] == SimpleKey(n.tbl, n.entry[b][A_ATOM])
  {
    seq(size, b requires 0 <= b < size => SimpleKey(n.tbl, n.entry[b][A_ATOM]))
  }

  /** A turn over a graph of field blocks. */
  ghost predicate FieldTurn(g: Graph, root: nat, w: Rewriting, h: Graph) {
    RewritingOf(g, root, w, h) && FieldGraph(g, root) && WellFormed(g) && root < |g|
  }

  /** One numbered block: its statements, X untouched, and the key of A on exit. */
  lemma BlockNumbered(g: Graph, root: nat, w: Rewriting, h: Graph, b: nat)
    requires FieldTurn(g, root, w, h) && b in w.live
    ensures b < |g| == |w.g1| == |h| == |w.outUse| && w.g1[b] == g[b].(stmts := w.g1[b].stmts) && FieldBlock(w.g1[b])
    ensures Joins(g, root, w.live, w.n, b) && w.n.exit[b][X_ATOM] == w.n.entry[b][X_ATOM]
    ensures SimpleKey(w.n.tbl, w.n.exit[b][A_ATOM]) ==
              KeyAfter(w.g1[b].stmts, SimpleKey(w.n.tbl, w.n.entry[b][A_ATOM]))
  {
    var n := w.n;
    assert SweptAt(g, w.g1, root, w.live, n, true, b);
    FieldNumbered(VState(n.starts[b], n.entry[b]), g[b].stmts);
    SimpleStays(n.starts[b], n.tbl, n.entry[b][A_ATOM]);
    SimpleStays(n.ends[b], n.tbl, n.exit[b][A_ATOM]);
  }

  /** X has no number anywhere. */
  lemma {:induction false} XUnknown(g: Graph, root: nat, w: Rewriting, h: Graph, b: nat)
    requires FieldTurn(g, root, w, h) && b in w.live
    ensures b < |w.n.entry| && w.n.entry[b][X_ATOM] == 0
    decreases Highest(w.lv) - w.lv[if b < |w.lv| then b else 0]
  {
    BlockNumbered(g, root, w, h, b);
    if b != root {
      ReachedFrom(g, root, b);
      var q: nat :| q in w.live && BlockRel(g)(q, b);
      EdgeFalls(g, w, q, b);
      XUnknown(g, root, w, h, q);
      BlockNumbered(g, root, w, h, q);
    }
  }

  lemma EdgeFalls(g: Graph, w: Rewriting, q: nat, b: nat)
    requires IsLiveness(g, w.lv, w.live, w.outUse) && q in w.live && BlockRel(g)(q, b)
    ensures |w.lv| == |g| && w.lv[q] > w.lv[b] >= 0
  {
    assert w.outUse[q] == w.outUse[q];
  }

  /** A block that leaves nothing to return to is not emptied. */
  lemma OnlyReturnsEmptied(g: Graph, root: nat, w: Rewriting, h: Graph, b: nat)
    requires FieldTurn(g, root, w, h) && b in w.live
    ensures b < |w.g1| && (EmptiedAt(w.g1, w.n, true, w.outUse, b) ==> w.g1[b].s.RetK?)
  {
    BlockNumbered(g, root, w, h, b);
    XUnknown(g, root, w, h, b);
  }

  /** What the old graph says of A on entry, numbering finds out. */
  lemma {:induction false} KeysFound(g: Graph, root: nat, w: Rewriting, h: Graph, keys: seq<Option<Key>>, b: nat)
    requires FieldTurn(g, root, w, h) && Annotated(g, root, keys) && b in w.live
    ensures b < |g| && |w.n.entry| == |g|
    ensures keys[b].Some? ==> SimpleKey(w.n.tbl, w.n.entry[b][A_ATOM]) == keys[b]
    decreases Highest(w.lv) - w.lv[if b < |w.lv| then b else 0]
  {
    BlockNumbered(g, root, w, h, b);
    if keys[b].Some? {
      ReachedFrom(g, root, b);
      var q0: nat :| q0 in w.live && BlockRel(g)(q0, b);
      var v := w.n.exit[q0][A_ATOM];
      forall q: nat | q in w.live && BlockRel(g)(q, b)
        ensures q < |g| && SimpleKey(w.n.tbl, w.n.exit[q][A_ATOM]) == keys[b]
      {
        EdgeFalls(g, w, q, b);
        KeysFound(g, root, w, h, keys, q);
        KeyLeft(g, root, w, h, keys, q, b);
      }
      OneNumber(w.n.tbl, keys[b].value);
      assert PredsLeave(g, w.live, w.n, b, A_ATOM, v);
    }
  }

  /** A key has one number. */
  lemma OneNumber(tbl: Table, key: Key)
    requires NoKeyTwice(tbl)
    ensures forall u: nat, v: nat :: SimpleKey(tbl, u) == Some(key) && SimpleKey(tbl, v) == Some(key) ==> u == v
  {
  }

  lemma KeyLeft(g: Graph, root: nat, w: Rewriting, h: Graph, keys: seq<Option<Key>>, q: nat, b: nat)
    requires FieldTurn(g, root, w, h) && Annotated(g, root, keys) && b in w.live && q in w.live && BlockRel(g)(q, b)
    requires keys[b].Some? && |w.n.entry| == |g|
    requires keys[q].Some? ==> SimpleKey(w.n.tbl, w.n.entry[q][A_ATOM]) == keys[q]
    ensures q < |w.n.exit| && SimpleKey(w.n.tbl, w.n.exit[q][A_ATOM]) == keys[b]
  {
    var n := w.n;
    assert Provides(g, keys, q, b);
    assert SweptAt(g, w.g1, root, w.live, n, true, q) && FieldBlock(g[q]);
    SimpleStays(n.starts[q], n.tbl, n.entry[q][A_ATOM]);
    SimpleStays(n.ends[q], n.tbl, n.exit[q][A_ATOM]);
    NumberingKnows(VState(n.starts[q], n.entry[q]), g[q].stmts, keys[q]);
  }

  /** A numbered block that reads A on entry is entered with a known key. */
  lemma ReadIsKnown(g: Graph, root: nat, w: Rewriting, h: Graph, keys: seq<Option<Key>>, b: nat)
    requires FieldTurn(g, root, w, h) && Annotated(g, root, keys) && b in w.live
    ensures b < |g| == |w.g1| == |w.n.entry| == |w.n.starts| && ReadsKnownAt(g, w.n, true, b)
    ensures ReadsA(w.g1[b].stmts, w.g1[b].s) ==> SimpleKey(w.n.tbl, w.n.entry[b][A_ATOM]).Some?
  {
    var n := w.n;
    BlockNumbered(g, root, w, h, b);
    KeysFound(g, root, w, h, keys, b);
    assert SweptAt(g, w.g1, root, w.live, n, true, b) && FieldBlock(g[b]);
    SimpleStays(n.starts[b], n.tbl, n.entry[b][A_ATOM]);
    var vs := VState(n.starts[b], n.entry[b]);
    FieldReadsKnown(vs, g[b].stmts, g[b].s);
    if !ReadsA(g[b].stmts, g[b].s) {
      NewReadIsKnown(vs, g[b].stmts, g[b].s);
    }
  }

  /** On an edge to a block whose A is known on entry, the predecessor leaves that key. */
  lemma LeavesKey(g: Graph, root: nat, w: Rewriting, h: Graph, q: nat, b: nat)
    requires FieldTurn(g, root, w, h) && q in w.live && b in w.live && BlockRel(g)(q, b)
    ensures q < |w.g1| && b < |w.n.entry| && q < |w.n.entry|
    ensures var key := SimpleKey(w.n.tbl, w.n.entry[b][A_ATOM]);
            key.Some? ==> KeyAfter(w.g1[q].stmts, SimpleKey(w.n.tbl, w.n.entry[q][A_ATOM])) == key
  {
    BlockNumbered(g, root, w, h, q);
    BlockNumbered(g, root, w, h, b);
    assert w.n.entry[b] == Unknown || w.n.entry[b][A_ATOM] != 0 ==> w.n.entry[b][A_ATOM] in {0, w.n.exit[q][A_ATOM]};
  }

  lemma {:induction false} SameBase(ss: seq<Stmt>, s: Branch, out: AtomSet)
    requires out <= JumpUse(s)
    ensures LiveIn(ss, s, out) == LiveIn(ss, s, {})
  {
    if ss != [] {
      SameBase(ss[1..], s, out);
    } else {
      assert out + JumpUse(s) == {} + JumpUse(s);
    }
  }

  lemma {:induction false} OnlyARead(ss: seq<Stmt>, s: Branch)
    requires FieldStmts(ss) && FieldBranch(s)
    ensures LiveIn(ss, s, {}) <= {A_ATOM}
  {
    if ss != [] {
      FieldRest(ss);
      OnlyARead(ss[1..], s);
    }
  }

  /** What is needed on entry to a field block is what it reads itself. */
  lemma {:induction false} NeededIsRead(m: Graph, lv: seq<int>, live: set<nat>, b: nat)
    requires Leveled(m, lv) && SuccClosed(m, live) && b in live && lv[b] >= 0
    requires forall c :: c in live ==> FieldBlock(m[c])
    ensures Needed(m, lv, b) == LiveIn(m[b].stmts, m[b].s, {}) <= {A_ATOM}
    decreases lv[b]
  {
    OnlyARead(m[b].stmts, m[b].s);
    if m[b].s.Jmp? {
      NeededIsRead(m, lv, live, m[b].jt);
      NeededIsRead(m, lv, live, m[b].jf);
    }
    SameBase(m[b].stmts, m[b].s, NeededAfter(m, lv, b));
  }

  /** The graph left to read. */
  lemma MiddleFields(g: Graph, root: nat, w: Rewriting, h: Graph)
    requires FieldTurn(g, root, w, h)
    ensures Sized(w.g1, w.n) && |w.outUse| == |w.g1| && Leveled(w.g1, w.lv)
    ensures var m := Middle(w.g1, w.n, true, w.outUse);
            && Leveled(m, w.lv) && SuccClosed(m, w.live) && SuccClosed(w.g1, w.live)
            && forall b :: b in w.live ==> FieldBlock(m[b]) && FieldBlock(w.g1[b]) && w.lv[b] >= 0
  {
    var m := Middle(w.g1, w.n, true, w.outUse);
    LiveSuccClosed(g, root);
    SameShapeTidy(g, w.g1, w.live);
    SameShapeLeveled(g, w.g1, w.lv);
    MiddleLeveled(w.g1, w.lv, w.n, true, w.outUse);
    forall b | b in w.live
      ensures FieldBlock(m[b]) && FieldBlock(w.g1[b]) && w.lv[b] >= 0
      ensures m[b].s.Jmp? ==> m[b].jt in w.live && m[b].jf in w.live
    {
      BlockNumbered(g, root, w, h, b);
      assert w.outUse[b] == w.outUse[b];
    }
  }

  /** What is needed after a test is A at most, and then a target reads it. */
  lemma NeededByTarget(m: Graph, lv: seq<int>, live: set<nat>, b: nat)
    requires Leveled(m, lv) && SuccClosed(m, live) && b in live && lv[b] >= 0 && m[b].s.Jmp?
    requires forall c :: c in live ==> FieldBlock(m[c])
    ensures NeededAfter(m, lv, b) <= {A_ATOM} && m[b].jt in live && m[b].jf in live
    ensures A_ATOM in NeededAfter(m, lv, b) ==>
              ReadsA(m[m[b].jt].stmts, m[m[b].jt].s) || ReadsA(m[m[b].jf].stmts, m[m[b].jf].s)
  {
    NeededIsRead(m, lv, live, m[b].jt);
    NeededIsRead(m, lv, live, m[b].jf);
  }

  /** No block gives up A if a block after it has come to rely on it. */
  lemma NothingGivenUp(g: Graph, root: nat, w: Rewriting, h: Graph, keys: seq<Option<Key>>, b: nat)
    requires FieldTurn(g, root, w, h) && Annotated(g, root, keys) && b in w.live
    requires Sized(w.g1, w.n) && b < |w.g1| == |w.outUse| && Leveled(Middle(w.g1, w.n, true, w.outUse), w.lv)
    requires w.lv[b] >= 0
    ensures SparesAt(w.g1, Middle(w.g1, w.n, true, w.outUse), w.lv, w.n, true, w.outUse, b)
  {
    var m := Middle(w.g1, w.n, true, w.outUse);
    OnlyReturnsEmptied(g, root, w, h, b);
    if w.g1[b].s.Jmp? {
      KeepsA(g, root, w, h, keys, m, b);
      SparesOnlyA(w.g1[b], w.outUse[b], NeededAfter(m, w.lv, b), ConstantAt(w.n, b, A_ATOM),
                  ConstantAt(w.n, b, X_ATOM));
    } else {
      assert m[b].s == w.g1[b].s;
      assert NeededAfter(m, w.lv, b) == {};
    }
  }

  lemma SparesOnlyA(b: Block, outUse: AtomSet, on: AtomSet, ca: Option<Word>, cx: Option<Word>)
    requires on <= {A_ATOM} && (A_ATOM in on ==> A_ATOM !in Lost(b, outUse, ca, cx))
    ensures Spares(b, false, outUse, on, ca, cx)
  {
  }

  /** A test keeps A if that is needed after it. */
  lemma KeepsA(g: Graph, root: nat, w: Rewriting, h: Graph, keys: seq<Option<Key>>, m: Graph, b: nat)
    requires FieldTurn(g, root, w, h) && Annotated(g, root, keys) && b in w.live
    requires Sized(w.g1, w.n) && b < |w.g1| == |w.outUse| && w.g1[b].s.Jmp?
    requires m == Middle(w.g1, w.n, true, w.outUse) && Leveled(m, w.lv) && w.lv[b] >= 0
    ensures NeededAfter(m, w.lv, b) <= {A_ATOM}
    ensures A_ATOM in NeededAfter(m, w.lv, b) ==>
              A_ATOM !in Lost(w.g1[b], w.outUse[b], ConstantAt(w.n, b, A_ATOM), ConstantAt(w.n, b, X_ATOM))
  {
    var c := NeededBy(g, root, w, h, m, b);
    if A_ATOM in NeededAfter(m, w.lv, b) {
      EdgeKept(g, root, w, h, b, c);
      KeepsForNext(g, root, w, h, keys, b, c);
    }
  }

  lemma NeededBy(g: Graph, root: nat, w: Rewriting, h: Graph, m: Graph, b: nat) returns (c: nat)
    requires FieldTurn(g, root, w, h) && b in w.live && Sized(w.g1, w.n) && b < |w.g1| == |w.outUse|
    requires m == Middle(w.g1, w.n, true, w.outUse) && Leveled(m, w.lv) && w.lv[b] >= 0 && w.g1[b].s.Jmp?
    ensures NeededAfter(m, w.lv, b) <= {A_ATOM} && c in {w.g1[b].jt, w.g1[b].jf} && c in w.live && c < |w.g1|
    ensures FieldBlock(w.g1[b])
    ensures A_ATOM in NeededAfter(m, w.lv, b) ==> ReadsA(m[c].stmts, m[c].s)
  {
    MiddleFields(g, root, w, h);
    NeededByTarget(m, w.lv, w.live, b);
    c := if ReadsA(m[m[b].jt].stmts, m[m[b].jt].s) then m[b].jt else m[b].jf;
  }

  lemma EdgeKept(g: Graph, root: nat, w: Rewriting, h: Graph, q: nat, c: nat)
    requires FieldTurn(g, root, w, h) && q in w.live && c in w.live && q < |w.g1| && w.g1[q].s.Jmp?
    requires c == w.g1[q].jt || c == w.g1[q].jf
    ensures BlockRel(g)(q, c)
  {
    BlockNumbered(g, root, w, h, q);
    BlockNumbered(g, root, w, h, c);
  }

  lemma KeepsForNext(g: Graph, root: nat, w: Rewriting, h: Graph, keys: seq<Option<Key>>, q: nat, c: nat)
    requires FieldTurn(g, root, w, h) && Annotated(g, root, keys) && q in w.live && c in w.live && BlockRel(g)(q, c)
    requires Sized(w.g1, w.n) && q < |w.g1| == |w.outUse| && c < |w.g1| && FieldBlock(w.g1[q]) && w.g1[q].s.Jmp?
    requires var m := Middle(w.g1, w.n, true, w.outUse); ReadsA(m[c].stmts, m[c].s)
    ensures A_ATOM !in Lost(w.g1[q], w.outUse[q], ConstantAt(w.n, q, A_ATOM), ConstantAt(w.n, q, X_ATOM))
  {
    OnlyReturnsEmptied(g, root, w, h, c);
    ReadIsKnown(g, root, w, h, keys, c);
    LeavesKey(g, root, w, h, q, c);
    FieldLoses(w.g1[q], w.outUse[q], ConstantAt(w.n, q, A_ATOM), ConstantAt(w.n, q, X_ATOM),
               SimpleKey(w.n.tbl, w.n.entry[q][A_ATOM]));
  }

  /** So the turn keeps verdicts, on every run. */
  lemma FieldTurnSafe(g: Graph, root: nat, w: Rewriting, h: Graph, keys: seq<Option<Key>>)
    requires FieldTurn(g, root, w, h) && Annotated(g, root, keys)
    ensures Safe(w) && forall st: State, p: Packet :: Spared(w, root, st, p)
  {
    var m := Middle(w.g1, w.n, true, w.outUse);
    MiddleFields(g, root, w, h);
    LiveSuccClosed(g, root);
    forall b | b in w.live
      ensures ReadsKnownAt(g, w.n, true, b) && SparesAt(w.g1, m, w.lv, w.n, true, w.outUse, b) && !g[b].s.RetA?
      ensures FreshX(m[b].stmts, m[b].s, w.outUse[b], 0) && !TestsAllBits(m[b], w.outUse[b])
    {
      ReadIsKnown(g, root, w, h, keys, b);
      NothingGivenUp(g, root, w, h, keys, b);
      FieldIsPlain(m[b], w.outUse[b]);
      assert FieldBlock(g[b]);
    }
    forall st: State, p: Packet ensures Spared(w, root, st, p) {
      NoMasks(w.g1, m, w.lv, w.live, w.outUse, root, st, p);
    }
  }

  /** A block after the turn. */
  lemma BlockAfter(g: Graph, root: nat, w: Rewriting, h: Graph, b: nat)
    requires FieldTurn(g, root, w, h) && b in w.live
    ensures b < |h| == |g| == |w.n.entry| == |w.g1| && FieldBlock(h[b]) && EdgesWithin(g[b], h[b])
    ensures ReadsA(h[b].stmts, h[b].s) ==> ReadsA(w.g1[b].stmts, w.g1[b].s)
    ensures var key := SimpleKey(w.n.tbl, w.n.entry[b][A_ATOM]);
            h[b].s.Jmp? && KeyAfter(w.g1[b].stmts, key).Some? ==>
              KeyAfter(h[b].stmts, key) == KeyAfter(w.g1[b].stmts, key)
  {
    var empty := EmptiedAt(w.g1, w.n, true, w.outUse, b);
    var ca, cx := ConstantAt(w.n, b, A_ATOM), ConstantAt(w.n, b, X_ATOM);
    BlockNumbered(g, root, w, h, b);
    OnlyReturnsEmptied(g, root, w, h, b);
    assert FinishedAt(w.g1, h, w.n, true, w.outUse, b);
    FinishedShape(w.g1[b], h[b], empty, w.outUse[b], ca, cx);
    if !empty {
      FinishedReadsLess(w.g1[b], h[b], w.outUse[b], ca, cx);
      FieldFinished(w.g1[b], h[b], w.outUse[b], ca, cx, SimpleKey(w.n.tbl, w.n.entry[b][A_ATOM]));
    }
  }

  /** And leaves such a graph again. */
  lemma FieldTurnLeaves(g: Graph, root: nat, w: Rewriting, h: Graph, keys: seq<Option<Key>>)
    requires FieldTurn(g, root, w, h) && Annotated(g, root, keys)
    ensures |w.n.entry| == |h| && FieldGraph(h, root) && Annotated(h, root, Keys(w.n, |h|))
  {
    BlockNumberedRoot(g, root, w, h);
    var keys' := Keys(w.n, |h|);
    forall b | b in LiveBlocks(h, root) && b < |h|
      ensures FieldBlock(h[b]) && (ReadsA(h[b].stmts, h[b].s) ==> keys'[b].Some?)
    {
      BlockAfter(g, root, w, h, b);
      ReadIsKnown(g, root, w, h, keys, b);
    }
    forall q: nat, b: nat | q in LiveBlocks(h, root) && b in LiveBlocks(h, root) && BlockRel(h)(q, b)
      ensures Provides(h, keys', q, b)
    {
      BlockAfter(g, root, w, h, q);
      BlockAfter(g, root, w, h, b);
      assert BlockRel(g)(q, b);
      LeavesKey(g, root, w, h, q, b);
    }
  }

  lemma BlockNumberedRoot(g: Graph, root: nat, w: Rewriting, h: Graph)
    requires FieldTurn(g, root, w, h)
    ensures |w.n.entry| == |h| == |g| && w.n.entry[root] == Unknown
  {
    LiveSuccClosed(g, root);
    BlockNumbered(g, root, w, h, root);
  }

  /** The graphs of the second loop. */
  lemma {:induction false} FieldRewritings(g: Graph, h: Graph, root: nat, hs: seq<Graph>, ws: seq<Rewriting>,
                                           keys: seq<Option<Key>>, i: nat) returns (keys': seq<Option<Key>>)
    requires Rewritings(g, h, root, hs, ws) && FieldGraph(g, root) && Annotated(g, root, keys) && WellFormed(g)
    requires i <= |ws|
    ensures FieldGraph(hs[i], root) && Annotated(hs[i], root, keys') && WellFormed(hs[i])
  {
    keys' := keys;
    if i > 0 {
      var k := FieldRewritings(g, h, root, hs, ws, keys, i - 1);
      assert RewritingOf(hs[i - 1], root, ws[i - 1], hs[i - 1 + 1]);
      FieldTurnLeaves(hs[i - 1], root, ws[i - 1], hs[i], k);
      keys' := Keys(ws[i - 1].n, |hs[i]|);
    }
  }

  lemma FieldLoops(g: Graph, h: Graph, root: nat, hs: seq<Graph>, ws: seq<Rewriting>, keys: seq<Option<Key>>)
    requires Rewritings(g, h, root, hs, ws) && FieldGraph(g, root) && Annotated(g, root, keys) && WellFormed(g)
    ensures AllSafe(ws) && forall st: State, p: Packet :: AllSpared(ws, root, st, p)
    ensures FieldGraph(h, root)
  {
    forall i | 0 <= i < |ws| ensures Safe(ws[i]) && forall st: State, p: Packet :: Spared(ws[i], root, st, p) {
      var k := FieldRewritings(g, h, root, hs, ws, keys, i);
      assert RewritingOf(hs[i], root, ws[i], hs[i + 1]);
      FieldTurnSafe(hs[i], root, ws[i], hs[i + 1], k);
    }
    var k := FieldRewritings(g, h, root, hs, ws, keys, |ws|);
  }

  /** Numbering cannot fail on field blocks. */
  lemma FieldsNeverFail(g: Graph, root: nat, b: nat)
    requires FieldGraph(g, root)
    ensures !Fails(g, root, LiveBlocks(g, root), true, b)
  {
    if Fails(g, root, LiveBlocks(g, root), true, b) {
      var g', n, seen :| FailsAt(g, g', root, LiveBlocks(g, root), n, true, seen, b);
      var val :| FailsFrom(g, g', root, LiveBlocks(g, root), n, true, seen, b, val);
      FieldNumbered(VState(n.tbl, val), g[b].stmts);
    }
  }

  /** What the turns of the first loop leave of a graph of self-contained field blocks. */
  ghost predicate FieldsLeft(g: Graph, root: nat) {
    FieldGraph(g, root) &&
    forall b {:trigger g[b]} :: b in LiveBlocks(g, root) && b < |g| ==> !ReadsA(g[b].stmts, g[b].s)
  }

  lemma FirstTurnLeaves(g: Graph, root: nat, r: Record, h: Graph)
    requires TurnOf(g, root, r, h) && FieldsLeft(g, root)
    ensures FieldsLeft(h, root) && WellFormed(h) && |h| == |g|
  {
    forall b | b in LiveBlocks(h, root) && b < |h| ensures FieldBlock(h[b]) && !ReadsA(h[b].stmts, h[b].s) {
      var ca, cx := ConstantAt(r.n, b, A_ATOM), ConstantAt(r.n, b, X_ATOM);
      assert r.moved[b].stmts == r.swept[b].stmts && r.moved[b].s == r.swept[b].s;
      assert h[b].stmts == r.moved[b].stmts && h[b].s == r.moved[b].s;
      assert FinishedAt(g, r.swept, r.n, false, r.outUse, b);
      FinishedReadsLess(g[b], r.swept[b], r.outUse[b], ca, cx);
      FieldFinished(g[b], r.swept[b], r.outUse[b], ca, cx, None);
    }
  }

  lemma FirstTurnAt(g: Graph, h: Graph, root: nat, gs: seq<Graph>, rs: seq<Record>, i: nat)
    requires Turns(g, h, root, gs, rs) && i < |rs| && FieldsLeft(gs[i], root)
    ensures FieldsLeft(gs[i + 1], root) && WellFormed(gs[i + 1]) && |gs[i + 1]| == |gs[i]|
  {
    TurnAt(g, h, root, gs, rs, i);
    FirstTurnLeaves(gs[i], root, rs[i], gs[i + 1]);
  }

  ghost predicate KeepsFields(gs: seq<Graph>, root: nat, i: nat) {
    i + 1 < |gs| && (FieldsLeft(gs[i], root) ==>
                       FieldsLeft(gs[i + 1], root) && WellFormed(gs[i + 1]) && |gs[i + 1]| == |gs[i]|)
  }

  lemma {:induction false} KeptOverTurns(gs: seq<Graph>, root: nat, i: nat)
    requires |gs| > 0 && FieldsLeft(gs[0], root) && WellFormed(gs[0]) && i < |gs|
    requires forall k :: 0 <= k < i ==> KeepsFields(gs, root, k)
    ensures FieldsLeft(gs[i], root) && WellFormed(gs[i]) && |gs[i]| == |gs[0]|
    decreases i
  {
    if i > 0 {
      KeptOverTurns(gs, root, i - 1);
      assert KeepsFields(gs, root, i - 1);
    }
  }

  lemma FirstTurns(g: Graph, h: Graph, root: nat, gs: seq<Graph>, rs: seq<Record>, i: nat)
    requires Turns(g, h, root, gs, rs) && FieldsLeft(g, root) && WellFormed(g) && i <= |rs|
    ensures FieldsLeft(gs[i], root) && WellFormed(gs[i]) && |gs[i]| == |g|
  {
    forall k | 0 <= k < i ensures KeepsFields(gs, root, k) {
      if FieldsLeft(gs[k], root) {
        FirstTurnAt(g, h, root, gs, rs, k);
      }
    }
    KeptOverTurns(gs, root, i);
  }

  lemma {:induction false} TestsAreFields(e: F.Expr, lo: nat, i: nat)
    requires FieldTests(e) && F.Proper(e) && lo <= i < lo + F.Span(e)
    ensures var t := F.TestAt(e, lo, i); FieldStmts(t.stmts) && FieldBranch(t.s) && F.SelfContained(t)
  {
    match e
    case Leaf(_) =>
    case Not(e1) => TestsAreFields(e1, lo, i);
    case Conj(l, r) =>
      if i < lo + F.Span(l) { TestsAreFields(l, lo, i); } else { TestsAreFields(r, lo + F.Span(l), i); }
    case Disj(l, r) =>
      if i < lo + F.Span(l) { TestsAreFields(l, lo, i); } else { TestsAreFields(r, lo + F.Span(l), i); }
  }

  lemma FieldCode(g: Graph, e: F.Expr, snaplen: Word, root: nat)
    requires P.FinishedGraph(g, e, 0, F.Span(e), snaplen) && FieldTests(e) && F.Proper(e)
    ensures FieldsLeft(g, root)
  {
    forall b | b in LiveBlocks(g, root) && b < |g| ensures FieldBlock(g[b]) && !ReadsA(g[b].stmts, g[b].s) {
      if b < F.Span(e) {
        assert F.Places(g[b], F.TestAt(e, 0, b), F.ExitsAt(e, 0, b, F.To(F.Span(e)), F.To(F.Span(e) + 1)));
        TestsAreFields(e, 0, b);
        ClosedIsLive(g[b].stmts, g[b].s, {});
      }
    }
  }

  lemma {:induction false} FieldTestsArePlain(e: F.Expr)
    requires FieldTests(e)
    ensures PlainTests(e)
  {
    match e
    case Leaf(t) => FieldIsPlain(Block(t.stmts, t.s, 0, 0), {});
    case Not(e1) => FieldTestsArePlain(e1);
    case Conj(l, r) => FieldTestsArePlain(l); FieldTestsArePlain(r);
    case Disj(l, r) => FieldTestsArePlain(l); FieldTestsArePlain(r);
  }

  /** Comparisons of a field, as `gen_ncmp` makes them, are field tests. */
  lemma NcmpIsField(offset: Word, size: Size, mask: Word, jop: JmpOp, reverse: bool, v: Word)
    requires !(jop.Jset? && v == 0xffffffff)
    ensures FieldTests(GenNcmp(offset, size, mask, jop, reverse, v))
  {
  }

  lemma FieldTrace(e: F.Expr, g: Graph, last: Graph, snaplen: Word, turns0: nat, turns1: nat, ok: bool, t: Trace)
    requires F.Proper(e) && FieldTests(e) && P.FinishedGraph(g, e, 0, F.Span(e), snaplen) && WellFormed(g)
    requires TraceOf(g, last, 0, turns0, turns1, ok, t)
    ensures ok && AllSafe(t.ws) && forall st: State, p: Packet :: AllSpared(t.ws, 0, st, p)
  {
    FieldCode(g, e, snaplen, 0);
    var g1 := t.gs[turns0];
    FirstTurns(g, g1, 0, t.gs, t.rs, turns0);
    var keys := seq(|g1|, _ => None);
    NoKeysNeeded(g1, 0, keys);
    FieldLoops(g1, last, 0, t.hs, t.ws, keys);
    FieldsNeverFail(last, 0, t.failed);
  }

  lemma NoKeysNeeded(g: Graph, root: nat, keys: seq<Option<Key>>)
    requires FieldsLeft(g, root) && root < |g| == |keys| && forall b :: 0 <= b < |keys| ==> keys[b] == None
    ensures Annotated(g, root, keys)
  {
  }

  /** The whole compiler, any number of turns of either loop: for every combination of field comparisons the array
      decides as the expression does on every packet on which no comparison reaches beyond the packet. */
  method CompileFields(e: F.Expr, snaplen: Word, turns0: nat, turns1: nat) returns (code: seq<Insn>)
    requires F.Proper(e) && FieldTests(e)
    ensures forall p: Packet :: NoTestAborts(e, p) ==> F.Eval(e, p).Some?
    ensures forall st: State, p: Packet :: NoTestAborts(e, p) ==>
              RunArray(code, 0, st, p) == Return(if F.Eval(e, p).value then snaplen else 0)
  {
    forall p: Packet | NoTestAborts(e, p) ensures F.Eval(e, p).Some? {
      NoTestAbortsDecides(e, p);
    }
    var ok;
    ghost var g, last, lv, t;
    ok, code, g, last, lv, t := Compile(e, snaplen, turns0, turns1);
    FieldTestsArePlain(e);
    FieldTrace(e, g, last, snaplen, turns0, turns1, ok, t);
    forall st: State, p: Packet | NoTestAborts(e, p)
      ensures RunArray(code, 0, st, p) == Return(if F.Eval(e, p).value then snaplen else 0)
    {
      assert AllFine(t.rs, 0, st, p) && AllSpared(t.ws, 0, st, p);
      assert Decides(code, e, snaplen, st, p);
    }
  }
}
