/** The numbering sweep of `opt_blks`: predecessor lists, joins at block entry, blocks level by level. */
module NumberingPass {
  import opened Collections
  import opened Machine
  import opened Atoms
  import opened Paths
  import opened Levels
  import opened Layout
  import opened ValueNumbers
  import opened Numbering
  import opened ClosedGraph
  import opened Allocation

  /** Statements give a number only to the atoms they define. */
  lemma {:induction false} OthersKept(vs: VState, ss: seq<Stmt>, shared: set<Atom>, alter: bool)
    requires InTable(vs.tbl, vs.val) && Preserves(ss, shared)
    ensures var r := OptStmts(vs, ss, alter);
            r.BDone? ==> forall a: Atom :: a in shared ==> r.vs.val[a] == vs.val[a]
    decreases ss
  {
    if ss != [] {
      StepKeepsOthers(vs, ss[0], alter);
      match OptStmt(vs, ss[0], alter)
      case Error =>
      case Done(vs1, _) =>
        forall i | 0 <= i < |ss[1..]| && AtomDef(ss[1..][i]).Some? ensures AtomDef(ss[1..][i]).value !in shared {
          assert ss[1..][i] == ss[i + 1];
        }
        OthersKept(vs1, ss[1..], shared, alter);
    }
  }

  lemma StepKeepsOthers(vs: VState, s: Stmt, alter: bool)
    requires InTable(vs.tbl, vs.val)
    ensures var r := OptStmt(vs, s, alter);
            r.Done? ==> forall a: Atom :: AtomDef(s) != Some(a) ==> r.vs.val[a] == vs.val[a]
  {
  }

  predicate Defines(ss: seq<Stmt>, a: Atom) {
    exists i :: 0 <= i < |ss| && AtomDef(ss[i]) == Some(a)
  }

  /** A closed block leaves every atom it defines known. */
  lemma {:induction false} DefinedKnown(vs: VState, ss: seq<Stmt>, s: Branch, def: set<Atom>, a: Atom, alter: bool)
    requires InTable(vs.tbl, vs.val) && Closed(ss, s, def) && Knows(vs.val, def)
    requires Defines(ss, a) || vs.val[a] != 0
    ensures var r := OptStmts(vs, ss, alter); r.BDone? ==> r.vs.val[a] != 0
    decreases ss
  {
    if ss != [] {
      StepKnown(vs, ss[0], alter);
      match OptStmt(vs, ss[0], alter)
      case Error =>
      case Done(vs1, _) =>
        if Defines(ss, a) && AtomDef(ss[0]) != Some(a) {
          var i :| 0 <= i < |ss| && AtomDef(ss[i]) == Some(a);
          assert ss[1..][i - 1] == ss[i];
          assert Defines(ss[1..], a);
        }
        DefinedKnown(vs1, ss[1..], s, if AtomDef(ss[0]).Some? then def + {AtomDef(ss[0]).value} else def, a, alter);
    }
  }

  /** The blocks as the generator leaves them: the root relies on nothing and defines the shared slots;
      every other block relies on those at most and leaves them alone. */
  predicate BlocksClosed(g: Graph, root: nat, live: set<nat>, shared: set<Atom>)
    requires root < |g| && forall b :: b in live ==> b < |g|
  {
    && Closed(g[root].stmts, g[root].s, {})
    && (forall a: Atom :: a in shared ==> Defines(g[root].stmts, a))
    && forall b :: b in live && b != root ==> BlockClosed(g[b], shared)
  }

  /** The first `n` of `preds` all leave number `v` in `a`. */
  predicate AllLeave(preds: seq<nat>, exit: seq<Vals>, n: nat, a: Atom, v: nat)
    requires n <= |preds| && forall k :: 0 <= k < |preds| ==> preds[k] < |exit|
  {
    forall k :: 0 <= k < n ==> exit[preds[k]][a] == v
  }

  /** Join of the exit numbers of `preds`: a number all agree on, else unknown. */
  method JoinPreds(preds: seq<nat>, exit: seq<Vals>) returns (val: Vals)
    requires forall k :: 0 <= k < |preds| ==> preds[k] < |exit|
    ensures preds == [] ==> val == Unknown
    ensures forall a: Atom, k :: 0 <= k < |preds| && val[a] != 0 ==> val[a] == exit[preds[k]][a]
    ensures forall a: Atom, v: nat :: preds != [] && AllLeave(preds, exit, |preds|, a, v) ==> val[a] == v
  {
    if preds == [] {
      return Unknown;
    }
    val := exit[preds[0]];
    assert forall a: Atom, v: nat :: AllLeave(preds, exit, 1, a, v) ==> exit[preds[0]][a] == v;
    for k := 1 to |preds|
      invariant forall a: Atom, j :: 0 <= j < k && val[a] != 0 ==> val[a] == exit[preds[j]][a]
      invariant forall a: Atom, v: nat :: AllLeave(preds, exit, k, a, v) ==> val[a] == v
    {
      ghost var before := val;
      for i := 0 to N_ATOMS
        invariant forall a: Atom :: val[a] == if a < i && before[a] != exit[preds[k]][a] then 0 else before[a]
      {
        if val[i] != exit[preds[k]][i] {
          val := val[i := 0];
        }
      }
      ghost var n := k + 1;
      forall a: Atom, v: nat | AllLeave(preds, exit, n, a, v) ensures val[a] == v {
        assert AllLeave(preds, exit, k, a, v) && exit[preds[k]][a] == v;
      }
    }
  }

  /** How many of the edges of `q` lead to `b`, counting only blocks of `s`. */
  function EdgeCount(g: Graph, s: set<nat>, q: nat, b: nat): nat {
    if q < |g| && q in s && g[q].s.Jmp? then (if g[q].jt == b then 1 else 0) + (if g[q].jf == b then 1 else 0) else 0
  }

  /** The predecessor lists of the edges out of the blocks in `seen`: one entry per edge. */
  ghost predicate LinkedFrom(g: Graph, seen: set<nat>, ins: seq<seq<nat>>) {
    && |ins| == |g|
    && forall b, q: nat :: 0 <= b < |g| ==> multiset(ins[b])[q] == EdgeCount(g, seen, q, b)
  }

  /** `in_edges` as `find_inedges` leaves it. */
  ghost predicate InEdges(g: Graph, live: set<nat>, ins: seq<seq<nat>>) {
    LinkedFrom(g, live, ins)
  }

  lemma Predecessors(g: Graph, live: set<nat>, ins: seq<seq<nat>>, b: nat, q: nat)
    requires InEdges(g, live, ins) && b < |g|
    ensures q in ins[b] <==> q in live && BlockRel(g)(q, b)
  {
    assert multiset(ins[b])[q] == EdgeCount(g, live, q, b);
    assert q in ins[b] <==> q in multiset(ins[b]);
  }

  /** `find_inedges` */
  method FindInedges(g: Graph, root: nat, level: seq<int>, levels: seq<seq<nat>>, ghost live: set<nat>)
    returns (ins: seq<seq<nat>>)
    requires Levelled(g, root, level, levels, live)
    ensures InEdges(g, live, ins)
  {
    EdgesFall(g, level, levels, live);
    ins := seq(|g|, _ => []);
    ghost var seen: set<nat> := {};
    for i := level[root] + 1 downto 1
      invariant LinkedFrom(g, seen, ins) && seen <= live
      invariant SeenFrom(level, live, seen, i)
    {
      ins, seen := LinkLevel(g, root, level, levels, live, i, ins, seen);
    }
    forall b, q: nat | 0 <= b < |g| ensures EdgeCount(g, seen, q, b) == EdgeCount(g, live, q, b) {
      if q in live && BlockRel(g)(q, b) {
        assert level[q] >= 1;
      }
    }
  }

  method LinkLevel(g: Graph, root: nat, level: seq<int>, levels: seq<seq<nat>>, ghost live: set<nat>, i: nat,
                   ins0: seq<seq<nat>>, ghost seen: set<nat>)
    returns (ins: seq<seq<nat>>, ghost seen': set<nat>)
    requires Levelled(g, root, level, levels, live) && 0 < i < |levels|
    requires LinkedFrom(g, seen, ins0) && seen <= live && SeenFrom(level, live, seen, i + 1)
    ensures LinkedFrom(g, seen', ins) && seen' <= live && SeenFrom(level, live, seen', i)
  {
    ins, seen' := ins0, seen;
    UpToStart(g, level, levels, live, seen, i);
    for j := 0 to |levels[i]|
      invariant LinkedFrom(g, seen', ins) && seen' <= live && UpTo(level, live, seen', levels[i], i, j)
    {
      var b := levels[i][j];
      UpToHere(g, level, levels, live, seen', i, j);
      UpToNext(g, level, levels, live, seen', i, j);
      assert ExactLevel(g, level, b);
      LinkOne(g, seen', ins, b);
      ins := ins[g[b].jt := [b] + ins[g[b].jt]];
      ins := ins[g[b].jf := [b] + ins[g[b].jf]];
      seen' := seen' + {b};
    }
    UpToEnd(g, level, levels, live, seen', i);
  }

  lemma LinkOne(g: Graph, seen: set<nat>, ins: seq<seq<nat>>, b: nat)
    requires LinkedFrom(g, seen, ins) && b < |g| && b !in seen && g[b].s.Jmp? && g[b].jt < |g| && g[b].jf < |g|
    ensures var ins1 := ins[g[b].jt := [b] + ins[g[b].jt]];
            LinkedFrom(g, seen + {b}, ins1[g[b].jf := [b] + ins1[g[b].jf]])
  {
    var ins1 := ins[g[b].jt := [b] + ins[g[b].jt]];
    var ins2 := ins1[g[b].jf := [b] + ins1[g[b].jf]];
    forall c, q: nat | 0 <= c < |g| ensures multiset(ins2[c])[q] == EdgeCount(g, seen + {b}, q, c) {
      assert multiset(ins[c])[q] == EdgeCount(g, seen, q, c);
      assert multiset(ins1[c])[q] == multiset(ins[c])[q] + (if c == g[b].jt && q == b then 1 else 0);
      assert multiset(ins2[c])[q] == multiset(ins1[c])[q] + (if c == g[b].jf && q == b then 1 else 0);
    }
  }

  /** The same blocks, up to their statements. */
  predicate SameShape(g: Graph, g': Graph) {
    |g'| == |g| && forall b {:trigger g'[b]} :: 0 <= b < |g| ==> g'[b] == g[b].(stmts := g'[b].stmts)
  }

  /** Blocks outside `live` are as they were. */
  predicate Untouched(g: Graph, g': Graph, live: set<nat>) {
    |g'| == |g| && forall y {:trigger g'[y]} :: 0 <= y < |g| && y !in live ==> g'[y] == g[y]
  }

  /** No block has more statements than before. */
  predicate Shorter(g: Graph, g': Graph) {
    |g'| == |g| && forall b {:trigger g'[b]} :: 0 <= b < |g| ==> |Compact(g'[b].stmts)| <= |Compact(g[b].stmts)|
  }

  /** Rewritten statements, no more of them, in blocks of `live`. */
  predicate Reshaped(g: Graph, g': Graph, live: set<nat>) {
    SameShape(g, g') && Shorter(g, g') && Untouched(g, g', live)
  }

  /** No statement of the blocks of `s` reads an atom numbered 0. */
  predicate BlocksReadKnown(g: Graph, n: Numbers, alter: bool, s: set<nat>)
    requires Sized(g, n) && forall b :: b in s ==> b < |g|
  {
    forall b {:trigger ReadsKnownAt(g, n, alter, b)} :: b in s ==> ReadsKnownAt(g, n, alter, b)
  }

  /** The blocks in `seen` are numbered; and if none of them reads an atom numbered 0 the table is in
      order. */
  ghost predicate PassInv(g: Graph, g': Graph, root: nat, live: set<nat>, n: Numbers, alter: bool, seen: set<nat>) {
    && Sized(g, n) && |g'| == |g| && seen <= live && root < |g| && (forall b :: b in live ==> b < |g|)
    && (forall b {:trigger SweptAt(g, g', root, live, n, alter, b)} :: b in seen ==>
          SweptAt(g, g', root, live, n, alter, b))
    && (BlocksReadKnown(g, n, alter, seen) ==> Proper(n.tbl))
    && NoKeyTwice(n.tbl) && |n.tbl| <= Cost(g, seen, |g|)
  }

  /** Numbering block `b` does not disturb the blocks numbered before. */
  lemma StillSwept(g: Graph, g': Graph, root: nat, live: set<nat>, n: Numbers, n': Numbers, alter: bool,
                   seen: set<nat>, b: nat, c: nat, ss: seq<Stmt>)
    requires PassInv(g, g', root, live, n, alter, seen) && Sized(g, n') && b < |g| && b !in seen && c in seen
    requires n.tbl <= n'.tbl
    requires forall i :: 0 <= i < |g| && i != b ==>
               n'.starts[i] == n.starts[i] && n'.ends[i] == n.ends[i] && n'.entry[i] == n.entry[i] &&
               n'.exit[i] == n.exit[i] && n'.oval[i] == n.oval[i]
    requires forall q: nat :: q in live && BlockRel(g)(q, c) ==> q in seen
    ensures SweptAt(g, g'[b := g[b].(stmts := ss)], root, live, n', alter, c)
    ensures ReadsKnownAt(g, n', alter, c) == ReadsKnownAt(g, n, alter, c)
  {
    assert SweptAt(g, g', root, live, n, alter, c);
    forall a: Atom, v: nat | c != root && PredsLeave(g, live, n', c, a, v) ensures n'.entry[c][a] == v {
      assert PredsLeave(g, live, n, c, a, v);
    }
  }

  /** The numbers after block `b`: its statements, then its branch operand. */
  function After(n: Numbers, b: nat, val: Vals, vs: VState, s: Branch): Numbers
    requires b < |n.starts| == |n.ends| == |n.entry| == |n.exit| == |n.oval|
  {
    var r := if s.Jmp? && s.src.FromX? then (vs.tbl, vs.val[X_ATOM])
             else Intern(vs.tbl, KImm(if s.RetA? then 0 else s.k));
    Numbers(r.0, n.starts[b := n.tbl], n.ends[b := vs.tbl], n.entry[b := val], n.exit[b := vs.val], n.oval[b := r.1])
  }

  /** The numbers on entry to `b`: none at the root, elsewhere what the predecessors agree on. */
  ghost predicate Entered(g: Graph, root: nat, live: set<nat>, n: Numbers, b: nat, val: Vals)
    requires Sized(g, n) && b < |g| && (forall q :: q in live ==> q < |g|)
  {
    InTable(n.tbl, val) && Joins(g, root, live, n.(entry := n.entry[b := val]), b)
  }

  lemma BlockSwept(g: Graph, g': Graph, root: nat, live: set<nat>, n: Numbers, alter: bool, seen: set<nat>,
                   b: nat, val: Vals, vs: VState, ss: seq<Stmt>)
    requires PassInv(g, g', root, live, n, alter, seen) && b in live && b !in seen
    requires Entered(g, root, live, n, b, val)
    requires OptStmts(VState(n.tbl, val), g[b].stmts, alter) == BDone(vs, ss)
    requires forall q: nat :: q in live && BlockRel(g)(q, b) ==> q in seen
    ensures SweptAt(g, g'[b := g[b].(stmts := ss)], root, live, After(n, b, val, vs, g[b].s), alter, b)
  {
    var n', m := After(n, b, val, vs, g[b].s), n.(entry := n.entry[b := val]);
    forall a: Atom, v: nat | b != root && PredsLeave(g, live, n', b, a, v) ensures n'.entry[b][a] == v {
      assert PredsLeave(g, live, m, b, a, v);
    }
  }

  method EnterBlock(g: Graph, ghost g0: Graph, root: nat, ghost live: set<nat>, n: Numbers, ghost alter: bool,
                    ins: seq<seq<nat>>, ghost seen: set<nat>, b: nat)
    returns (val: Vals)
    requires PassInv(g, g0, root, live, n, alter, seen) && b in live && b !in seen && InEdges(g, live, ins)
    requires forall q: nat :: q in live && BlockRel(g)(q, b) ==> q in seen && b != root
    requires b != root ==> exists q: nat :: q in live && BlockRel(g)(q, b)
    ensures Entered(g, root, live, n, b, val)
  {
    forall q: nat ensures q in ins[b] <==> q in live && BlockRel(g)(q, b) {
      Predecessors(g, live, ins, b, q);
    }
    forall k | 0 <= k < |ins[b]| ensures ins[b][k] in seen && b != root {
      assert ins[b][k] in ins[b];
    }
    val := JoinPreds(ins[b], n.exit);
    if |ins[b]| > 0 {
      assert ins[b][0] in seen;
    }
    if b == root {
      return;
    }
    ghost var q0: nat :| q0 in live && BlockRel(g)(q0, b);
    assert q0 in ins[b];
    JoinIsEntry(g, g0, root, live, n, alter, seen, ins[b], b, val);
  }

  lemma JoinIsEntry(g: Graph, g0: Graph, root: nat, live: set<nat>, n: Numbers, alter: bool, seen: set<nat>,
                    preds: seq<nat>, b: nat, val: Vals)
    requires PassInv(g, g0, root, live, n, alter, seen) && b in live && b !in seen && b != root && preds != []
    requires forall q: nat :: q in preds <==> q in live && BlockRel(g)(q, b)
    requires forall k :: 0 <= k < |preds| ==> preds[k] in seen
    requires forall a: Atom, k :: 0 <= k < |preds| && val[a] != 0 ==> val[a] == n.exit[preds[k]][a]
    requires forall a: Atom, v: nat :: AllLeave(preds, n.exit, |preds|, a, v) ==> val[a] == v
    ensures Entered(g, root, live, n, b, val)
  {
    forall a: Atom ensures val[a] <= |n.tbl| {
      assert SweptAt(g, g0, root, live, n, alter, preds[0]);
    }
    forall q: nat, a: Atom | q in live && BlockRel(g)(q, b) && val[a] != 0 ensures val[a] == n.exit[q][a] {
      assert q in preds;
    }
    var m := n.(entry := n.entry[b := val]);
    forall a: Atom, v: nat | PredsLeave(g, live, m, b, a, v) ensures val[a] == v {
      forall k | 0 <= k < |preds| ensures n.exit[preds[k]][a] == v {
        assert preds[k] in preds;
      }
      assert AllLeave(preds, n.exit, |preds|, a, v);
    }
  }

  /** `opt_blk`, up to the peephole passes: join, number and rewrite the statements, number the branch
      operand. */
  method OptBlk(g: Graph, g0: Graph, root: nat, ghost live: set<nat>, n: Numbers, alter: bool,
                ins: seq<seq<nat>>, ghost seen: set<nat>, b: nat)
    returns (ok: bool, g': Graph, n': Numbers)
    requires PassInv(g, g0, root, live, n, alter, seen) && b in live && b !in seen && InEdges(g, live, ins)
    requires forall q: nat :: q in live && BlockRel(g)(q, b) ==> q in seen && b != root
    requires forall c: nat, q: nat :: c in seen && q in live && BlockRel(g)(q, c) ==> q in seen
    requires b != root ==> exists q: nat :: q in live && BlockRel(g)(q, b)
    requires if b == root then seen == {} else root in seen
    ensures ok ==> PassInv(g, g', root, live, n', alter, seen + {b})
    ensures Reshaped(g, g0, live) ==> Reshaped(g, g', live)
    ensures !ok ==> Fails(g, root, live, alter, b)
  {
    var val := EnterBlock(g, g0, root, live, n, alter, ins, seen, b);
    match OptStmts(VState(n.tbl, val), g[b].stmts, alter)
    case BError =>
      ok, g', n' := false, g0, n;
      FailureFound(g, g0, root, live, n, alter, seen, b, val);
    case BDone(vs, ss) =>
      ok, g', n' := true, g0[b := g[b].(stmts := ss)], After(n, b, val, vs, g[b].s);
      Passed(g, g0, root, live, n, alter, seen, b, val, vs, ss);
      RewritingShortens(VState(n.tbl, val), g[b].stmts, alter);
  }

  /** Numbering block `b` raises the error, from the entry numbers `val`. */
  ghost predicate FailsFrom(g: Graph, g': Graph, root: nat, live: set<nat>, n: Numbers, alter: bool, seen: set<nat>,
                            b: nat, val: Vals) {
    && PassInv(g, g', root, live, n, alter, seen) && b in live && b !in seen
    && (if b == root then seen == {} else root in seen)
    && (forall c: nat, q: nat :: c in seen && q in live && BlockRel(g)(q, c) ==> q in seen)
    && (forall q: nat :: q in live && BlockRel(g)(q, b) ==> q in seen)
    && Entered(g, root, live, n, b, val)
    && OptStmts(VState(n.tbl, val), g[b].stmts, alter).BError?
  }

  ghost predicate FailsAt(g: Graph, g': Graph, root: nat, live: set<nat>, n: Numbers, alter: bool, seen: set<nat>,
                          b: nat) {
    exists val: Vals :: FailsFrom(g, g', root, live, n, alter, seen, b, val)
  }

  /** A pass over `g` stops with the error at block `b`. */
  ghost predicate Fails(g: Graph, root: nat, live: set<nat>, alter: bool, b: nat) {
    exists g': Graph, n: Numbers, seen: set<nat> :: FailsAt(g, g', root, live, n, alter, seen, b)
  }

  lemma FailureFound(g: Graph, g': Graph, root: nat, live: set<nat>, n: Numbers, alter: bool, seen: set<nat>,
                     b: nat, val: Vals)
    requires FailsFrom(g, g', root, live, n, alter, seen, b, val)
    ensures Fails(g, root, live, alter, b)
  {
    assert FailsAt(g, g', root, live, n, alter, seen, b);
  }

  lemma Passed(g: Graph, g0: Graph, root: nat, live: set<nat>, n: Numbers, alter: bool, seen: set<nat>,
               b: nat, val: Vals, vs: VState, ss: seq<Stmt>)
    requires PassInv(g, g0, root, live, n, alter, seen) && b in live && b !in seen
    requires Entered(g, root, live, n, b, val)
    requires forall q: nat :: q in live && BlockRel(g)(q, b) ==> q in seen
    requires forall c: nat, q: nat :: c in seen && q in live && BlockRel(g)(q, c) ==> q in seen
    requires OptStmts(VState(n.tbl, val), g[b].stmts, alter) == BDone(vs, ss)
    ensures PassInv(g, g0[b := g[b].(stmts := ss)], root, live, After(n, b, val, vs, g[b].s), alter, seen + {b})
  {
    BlockSwept(g, g0, root, live, n, alter, seen, b, val, vs, ss);
    AllStillSwept(g, g0, root, live, n, alter, seen, b, val, vs, ss);
    PassedProper(g, g0, root, live, n, alter, seen, b, val, vs, ss);
    BlockNoTwice(VState(n.tbl, val), g[b].stmts, alter);
    InternNoTwice(vs.tbl, KImm(if g[b].s.RetA? then 0 else g[b].s.k));
    CostAdd(g, seen, b, |g|);
  }

  lemma AllStillSwept(g: Graph, g0: Graph, root: nat, live: set<nat>, n: Numbers, alter: bool, seen: set<nat>,
                      b: nat, val: Vals, vs: VState, ss: seq<Stmt>)
    requires PassInv(g, g0, root, live, n, alter, seen) && b in live && b !in seen && InTable(n.tbl, val)
    requires forall c: nat, q: nat :: c in seen && q in live && BlockRel(g)(q, c) ==> q in seen
    requires OptStmts(VState(n.tbl, val), g[b].stmts, alter) == BDone(vs, ss)
    ensures var n', g' := After(n, b, val, vs, g[b].s), g0[b := g[b].(stmts := ss)];
            forall c {:trigger SweptAt(g, g', root, live, n', alter, c)} :: c in seen ==>
              SweptAt(g, g', root, live, n', alter, c)
    ensures var n' := After(n, b, val, vs, g[b].s);
            forall c {:trigger ReadsKnownAt(g, n', alter, c)} :: c in seen ==>
              ReadsKnownAt(g, n', alter, c) == ReadsKnownAt(g, n, alter, c)
  {
    var n', g' := After(n, b, val, vs, g[b].s), g0[b := g[b].(stmts := ss)];
    forall c | c in seen
      ensures SweptAt(g, g', root, live, n', alter, c) && ReadsKnownAt(g, n', alter, c) == ReadsKnownAt(g, n, alter, c)
    {
      StillSwept(g, g0, root, live, n, n', alter, seen, b, c, ss);
    }
  }

  lemma PassedProper(g: Graph, g0: Graph, root: nat, live: set<nat>, n: Numbers, alter: bool, seen: set<nat>,
                     b: nat, val: Vals, vs: VState, ss: seq<Stmt>)
    requires PassInv(g, g0, root, live, n, alter, seen) && b in live && b !in seen && InTable(n.tbl, val)
    requires OptStmts(VState(n.tbl, val), g[b].stmts, alter) == BDone(vs, ss)
    ensures var n' := After(n, b, val, vs, g[b].s);
            ((forall c :: c in seen ==> ReadsKnownAt(g, n', alter, c) == ReadsKnownAt(g, n, alter, c)) &&
             BlocksReadKnown(g, n', alter, seen + {b})) ==> Proper(n'.tbl)
  {
    var n' := After(n, b, val, vs, g[b].s);
    if (forall c :: c in seen ==> ReadsKnownAt(g, n', alter, c) == ReadsKnownAt(g, n, alter, c)) &&
       BlocksReadKnown(g, n', alter, seen + {b})
    {
      forall c | c in seen ensures ReadsKnownAt(g, n, alter, c) {
        assert ReadsKnownAt(g, n', alter, c);
      }
      assert ReadsKnownAt(g, n', alter, b);
      BlockProper(VState(n.tbl, val), g[b].stmts, alter);
      ConstProper(vs.tbl, if g[b].s.RetA? then 0 else g[b].s.k);
    }
  }

  /** Every reachable block but the root has a reachable predecessor; the root has none. */
  lemma HasPredecessor(g: Graph, root: nat, level: seq<int>, levels: seq<seq<nat>>, live: set<nat>, b: nat)
    requires Levelled(g, root, level, levels, live) && b in live
    ensures b != root ==> exists q: nat :: q in live && BlockRel(g)(q, b)
    ensures forall q: nat :: q in live && BlockRel(g)(q, b) ==> level[q] > level[b] && b != root
    ensures b != root ==> level[b] < level[root]
  {
    EdgesFall(g, level, levels, live);
    if b != root {
      var path :| Leads(BlockRel(g), Only(root), path, b);
      var q := ShortenPath(BlockRel(g), Only(root), path, b);
      assert q in live by { assert Reach(BlockRel(g), Only(root), q); }
    }
  }

  /** The numbering sweep, highest level first.  It stops only at a statement that divides by zero.  If
      no statement reads an atom numbered 0 the numbers are as the theorems want them. */
  method OptBlks(g: Graph, root: nat, level: seq<int>, levels: seq<seq<nat>>, ghost live: set<nat>, alter: bool)
    returns (ok: bool, g': Graph, n: Numbers, ghost failed: nat)
    requires Levelled(g, root, level, levels, live)
    ensures ok ==> Sized(g, n) && Reshaped(g, g', live) && NoKeyTwice(n.tbl) && |n.tbl| <= Cost(g, live, |g|)
    ensures ok ==> forall b {:trigger SweptAt(g, g', root, live, n, alter, b)} :: b in live ==>
                     SweptAt(g, g', root, live, n, alter, b)
    ensures ok && BlocksReadKnown(g, n, alter, live) ==> Numbered(g, g', root, live, n, alter)
    ensures !ok ==> Fails(g, root, live, alter, failed)
  {
    var ins := FindInedges(g, root, level, levels, live);
    var empty: Table := [];
    n := Numbers([], seq(|g|, _ => empty), seq(|g|, _ => empty), seq(|g|, _ => Unknown), seq(|g|, _ => Unknown),
                 seq(|g|, _ => 0));
    g' := g;
    ok, failed := true, root;
    ghost var seen: set<nat> := {};
    for i := level[root] + 1 downto 0
      invariant ok ==> PassInv(g, g', root, live, n, alter, seen) && SeenFrom(level, live, seen, i)
      invariant Reshaped(g, g', live)
      invariant !ok ==> Fails(g, root, live, alter, failed)
    {
      if !ok {
        return;
      }
      ok, g', n, seen, failed := NumberLevel(g, g', root, level, levels, live, n, alter, ins, seen, i);
    }
    if ok {
      assert seen == live;
      forall b | b in live && BlocksReadKnown(g, n, alter, live) ensures NumberedWell(g, g', root, live, n, alter, b) {
        assert SweptAt(g, g', root, live, n, alter, b) && ReadsKnownAt(g, n, alter, b);
      }
    }
  }

  method NumberLevel(g: Graph, g0: Graph, root: nat, level: seq<int>, levels: seq<seq<nat>>, ghost live: set<nat>,
                     n0: Numbers, alter: bool, ins: seq<seq<nat>>, ghost seen: set<nat>, i: nat)
    returns (ok: bool, g': Graph, n: Numbers, ghost seen': set<nat>, ghost failed: nat)
    requires Levelled(g, root, level, levels, live) && InEdges(g, live, ins) && i <= level[root] < |levels|
    requires PassInv(g, g0, root, live, n0, alter, seen) && SeenFrom(level, live, seen, i + 1)
    ensures ok ==> PassInv(g, g', root, live, n, alter, seen') && SeenFrom(level, live, seen', i)
    ensures Reshaped(g, g0, live) ==> Reshaped(g, g', live)
    ensures !ok ==> Fails(g, root, live, alter, failed)
  {
    ok, g', n, seen', failed := true, g0, n0, seen, root;
    UpToStart(g, level, levels, live, seen, i);
    for j := 0 to |levels[i]|
      invariant ok ==> PassInv(g, g', root, live, n, alter, seen') && UpTo(level, live, seen', levels[i], i, j)
      invariant Reshaped(g, g0, live) ==> Reshaped(g, g', live)
      invariant !ok ==> Fails(g, root, live, alter, failed)
    {
      if !ok {
        return;
      }
      var b := levels[i][j];
      NextInOrder(g, root, level, levels, live, seen', i, j);
      UpToNext(g, level, levels, live, seen', i, j);
      ok, g', n := OptBlk(g, g', root, live, n, alter, ins, seen', b);
      seen', failed := seen' + {b}, b;
    }
    if ok {
      UpToEnd(g, level, levels, live, seen', i);
    }
  }

  lemma NextInOrder(g: Graph, root: nat, level: seq<int>, levels: seq<seq<nat>>, live: set<nat>, seen: set<nat>,
                    i: nat, j: nat)
    requires Levelled(g, root, level, levels, live) && i < |levels| && j < |levels[i]|
    requires seen <= live && UpTo(level, live, seen, levels[i], i, j)
    ensures var b := levels[i][j];
            && b in live && b !in seen
            && (forall q: nat :: q in live && BlockRel(g)(q, b) ==> q in seen && b != root)
            && (forall c: nat, q: nat :: c in seen && q in live && BlockRel(g)(q, c) ==> q in seen)
            && (b != root ==> exists q: nat :: q in live && BlockRel(g)(q, b))
            && (if b == root then seen == {} else root in seen)
  {
    var b := levels[i][j];
    UpToHere(g, level, levels, live, seen, i, j);
    HasPredecessor(g, root, level, levels, live, b);
    EdgesFall(g, level, levels, live);
    forall c: nat, q: nat | c in seen && q in live && BlockRel(g)(q, c) ensures q in seen {
      assert level[q] > level[c] >= i;
    }
    if b == root {
      forall c | c in live ensures c !in seen {
        if c != root {
          HasPredecessor(g, root, level, levels, live, c);
        }
      }
    }
  }

  /** What block `b` may rely on: nothing at the root, the shared slots elsewhere. */
  function Given(root: nat, shared: set<Atom>, b: nat): set<Atom> {
    if b == root then {} else shared
  }

  /** The shared slots have, on entry to and exit from `b`, the numbers the root gave them. */
  predicate SharedAt(g: Graph, root: nat, shared: set<Atom>, n: Numbers, b: nat)
    requires Sized(g, n) && root < |g| && b < |g|
  {
    && (b != root ==> forall a: Atom :: a in shared ==> n.entry[b][a] == n.exit[root][a])
    && forall a: Atom :: a in shared ==> n.exit[b][a] == n.exit[root][a] && n.exit[root][a] != 0
  }

  /** The blocks of `seen` were numbered, predecessors first. */
  ghost predicate SweptIn(g: Graph, g': Graph, root: nat, live: set<nat>, n: Numbers, alter: bool, seen: set<nat>) {
    && Sized(g, n) && |g'| == |g| && seen <= live && root < |g| && (forall b :: b in live ==> b < |g|)
    && (forall b {:trigger SweptAt(g, g', root, live, n, alter, b)} :: b in seen ==>
          SweptAt(g, g', root, live, n, alter, b))
    && (forall c: nat, q: nat :: c in seen && q in live && BlockRel(g)(q, c) ==> q in seen)
  }

  lemma RootShares(g: Graph, g': Graph, root: nat, live: set<nat>, shared: set<Atom>, n: Numbers, alter: bool,
                   seen: set<nat>)
    requires SweptIn(g, g', root, live, n, alter, seen) && root in seen && BlocksClosed(g, root, live, shared)
    ensures ReadsKnownAt(g, n, alter, root) && SharedAt(g, root, shared, n, root)
  {
    assert SweptAt(g, g', root, live, n, alter, root);
    var vs := VState(n.starts[root], n.entry[root]);
    BlockKnown(vs, g[root].stmts, g[root].s, {}, alter);
    forall a: Atom | a in shared ensures n.exit[root][a] != 0 {
      DefinedKnown(vs, g[root].stmts, g[root].s, {}, a, alter);
    }
  }

  lemma EntryShares(g: Graph, g': Graph, root: nat, live: set<nat>, shared: set<Atom>, n: Numbers, b: nat)
    requires Sized(g, n) && (forall q :: q in live ==> q < |g|) && root < |g| && b < |g| && b != root
    requires Joins(g, root, live, n, b)
    requires forall q: nat :: q in live && BlockRel(g)(q, b) ==> SharedAt(g, root, shared, n, q)
    ensures forall a: Atom :: a in shared ==> n.entry[b][a] == n.exit[root][a]
  {
    forall a: Atom | a in shared ensures n.entry[b][a] == n.exit[root][a] {
      assert PredsLeave(g, live, n, b, a, n.exit[root][a]);
    }
  }

  /** In a graph of self-contained blocks no statement reads an atom numbered 0, and the shared slots keep
      their numbers. */
  lemma {:induction false} ClosedReadsKnown(g: Graph, g': Graph, root: nat, level: seq<int>, levels: seq<seq<nat>>,
                                            live: set<nat>, shared: set<Atom>, n: Numbers, alter: bool,
                                            seen: set<nat>, b: nat)
    requires Levelled(g, root, level, levels, live) && BlocksClosed(g, root, live, shared)
    requires SweptIn(g, g', root, live, n, alter, seen) && root in seen && b in seen
    ensures ReadsKnownAt(g, n, alter, b) && SharedAt(g, root, shared, n, b)
    decreases level[root] - level[b]
  {
    RootShares(g, g', root, live, shared, n, alter, seen);
    if b != root {
      HasPredecessor(g, root, level, levels, live, b);
      forall q: nat | q in live && BlockRel(g)(q, b) ensures SharedAt(g, root, shared, n, q) {
        ClosedReadsKnown(g, g', root, level, levels, live, shared, n, alter, seen, q);
      }
      assert SweptAt(g, g', root, live, n, alter, b);
      EntryShares(g, g', root, live, shared, n, b);
      var vs := VState(n.starts[b], n.entry[b]);
      BlockKnown(vs, g[b].stmts, g[b].s, shared, alter);
      OthersKept(vs, g[b].stmts, shared, alter);
    }
  }

  /** So a pass over such a graph numbers it as the theorems want. */
  lemma ClosedIsNumbered(g: Graph, g': Graph, root: nat, level: seq<int>, levels: seq<seq<nat>>, live: set<nat>,
                         shared: set<Atom>, n: Numbers, alter: bool)
    requires Levelled(g, root, level, levels, live) && BlocksClosed(g, root, live, shared) && Sized(g, n) && |g'| == |g|
    requires forall b {:trigger SweptAt(g, g', root, live, n, alter, b)} :: b in live ==>
               SweptAt(g, g', root, live, n, alter, b)
    ensures BlocksReadKnown(g, n, alter, live)
    ensures forall b {:trigger SharedAt(g, root, shared, n, b)} :: b in live ==> SharedAt(g, root, shared, n, b)
  {
    EdgesFall(g, level, levels, live);
    forall b | b in live ensures ReadsKnownAt(g, n, alter, b) && SharedAt(g, root, shared, n, b) {
      ClosedReadsKnown(g, g', root, level, levels, live, shared, n, alter, live, b);
    }
  }
}
