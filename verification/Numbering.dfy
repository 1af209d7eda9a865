/** Value numbering of whole blocks and graphs: the first half of `opt_blk` and `opt_blks`. */
module Numbering {
  import opened Collections
  import opened Machine
  import opened Atoms
  import opened Levels
  import opened Layout
  import opened ValueNumbers

  datatype BlockStep = BDone(vs: VState, ss: seq<Stmt>) | BError

  /** The statements of a block in turn. */
  function OptStmts(vs: VState, ss: seq<Stmt>, alter: bool): (r: BlockStep)
    requires InTable(vs.tbl, vs.val)
    ensures r.BDone? ==>
              && vs.tbl <= r.vs.tbl && InTable(r.vs.tbl, r.vs.val) && |r.ss| == |ss|
              && |r.vs.tbl| <= |vs.tbl| + 2 * |Compact(ss)|
    decreases ss
  {
    if ss == [] then BDone(vs, [])
    else
      match OptStmt(vs, ss[0], alter)
      case Error => BError
      case Done(vs1, s) =>
        match OptStmts(vs1, ss[1..], alter)
        case BError => BError
        case BDone(vs2, rest) => BDone(vs2, [s] + rest)
  }

  predicate Knows(val: Vals, on: set<Atom>) {
    forall a: Atom :: a in on ==> val[a] != 0
  }

  /** No statement reads an atom whose number is 0, "unknown", when its turn comes. */
  predicate AllReadsKnown(vs: VState, ss: seq<Stmt>, alter: bool)
    requires InTable(vs.tbl, vs.val)
    decreases ss
  {
    ss == [] ||
    (ReadsKnown(vs.val, ss[0]) &&
     match OptStmt(vs, ss[0], alter)
     case Error => true
     case Done(vs1, _) => AllReadsKnown(vs1, ss[1..], alter))
  }

  /** A closed block entered with `def` known reads only known atoms, and leaves `def` and what its
      branch reads known. */
  lemma {:induction false} BlockKnown(vs: VState, ss: seq<Stmt>, s: Branch, def: set<Atom>, alter: bool)
    requires InTable(vs.tbl, vs.val) && Closed(ss, s, def) && Knows(vs.val, def)
    ensures AllReadsKnown(vs, ss, alter)
    ensures var r := OptStmts(vs, ss, alter); r.BDone? ==> Knows(r.vs.val, def + BranchUse(s))
    decreases ss
  {
    if ss != [] {
      StepKnown(vs, ss[0], alter);
      match OptStmt(vs, ss[0], alter)
      case Error =>
      case Done(vs1, s1) =>
        BlockKnown(vs1, ss[1..], s, if AtomDef(ss[0]).Some? then def + {AtomDef(ss[0]).value} else def, alter);
    }
  }

  /** Keys made from known numbers keep the table in order. */
  lemma {:induction false} BlockProper(vs: VState, ss: seq<Stmt>, alter: bool)
    requires Proper(vs.tbl) && InTable(vs.tbl, vs.val) && AllReadsKnown(vs, ss, alter)
    ensures var r := OptStmts(vs, ss, alter); r.BDone? ==> Proper(r.vs.tbl)
    decreases ss
  {
    if ss != [] {
      StepKnown(vs, ss[0], alter);
      match OptStmt(vs, ss[0], alter)
      case Error =>
      case Done(vs1, _) => BlockProper(vs1, ss[1..], alter);
    }
  }

  lemma {:induction false} BlockNoTwice(vs: VState, ss: seq<Stmt>, alter: bool)
    requires InTable(vs.tbl, vs.val) && NoKeyTwice(vs.tbl)
    ensures var r := OptStmts(vs, ss, alter); r.BDone? ==> NoKeyTwice(r.vs.tbl)
    decreases ss
  {
    if ss != [] {
      StepNoTwice(vs, ss[0], alter);
      match OptStmt(vs, ss[0], alter)
      case Error =>
      case Done(vs1, _) => BlockNoTwice(vs1, ss[1..], alter);
    }
  }

  /** Numbering a block keeps what it does: from a state its numbers explain, a block that runs to the
      end is numbered without error, the statements that stay lead to the same exit state, and the exit
      numbers explain it. */
  lemma {:induction false} BlockRight(vs: VState, ss: seq<Stmt>, alter: bool, st: State, p: Packet)
    requires Sound(vs, st, p) && AllReadsKnown(vs, ss, alter) && ExecAll(ss, st, p).Some?
    ensures var r := OptStmts(vs, ss, alter);
            r.BDone? && ExecAll(r.ss, st, p) == ExecAll(ss, st, p) && Sound(r.vs, ExecAll(ss, st, p).value, p)
    decreases ss
  {
    if ss != [] {
      OptStmtWorks(vs, ss[0], alter, st, p);
      OptStmtRight(vs, ss[0], alter, st, p);
      var step := OptStmt(vs, ss[0], alter);
      BlockRight(step.vs, ss[1..], alter, Exec(ss[0], st, p).value, p);
      var r := OptStmts(step.vs, ss[1..], alter);
      assert ([step.s] + r.ss)[1..] == r.ss;
    }
  }

  /** Rewriting never lengthens a block, deleted statements aside. */
  lemma {:induction false} RewritingShortens(vs: VState, ss: seq<Stmt>, alter: bool)
    requires InTable(vs.tbl, vs.val)
    ensures var r := OptStmts(vs, ss, alter); r.BDone? ==> |Compact(r.ss)| <= |Compact(ss)|
    decreases ss
  {
    if ss != [] {
      match OptStmt(vs, ss[0], alter)
      case Error =>
      case Done(vs1, s1) =>
        RewritingShortens(vs1, ss[1..], alter);
        var r := OptStmts(vs1, ss[1..], alter);
        if r.BDone? {
          assert ([s1] + r.ss)[1..] == r.ss;
        }
    }
  }

  /** The numbers of a whole pass.  `starts[b]` and `ends[b]` are the table before and after block `b`,
      `entry[b]` and `exit[b]` its numbers there, `oval[b]` the number of its branch's operand. */
  datatype Numbers = Numbers(tbl: Table, starts: seq<Table>, ends: seq<Table>, entry: seq<Vals>, exit: seq<Vals>,
                             oval: seq<nat>)

  predicate Sized(g: Graph, n: Numbers) {
    |n.starts| == |n.ends| == |n.entry| == |n.exit| == |n.oval| == |g|
  }

  predicate PredsLeave(g: Graph, live: set<nat>, n: Numbers, b: nat, a: Atom, v: nat)
    requires Sized(g, n) && forall q :: q in live ==> q < |g|
  {
    forall q: nat :: q in live && BlockRel(g)(q, b) ==> n.exit[q][a] == v
  }

  /** A number is known on entry exactly when it is the number every predecessor left. */
  ghost predicate Joins(g: Graph, root: nat, live: set<nat>, n: Numbers, b: nat)
    requires Sized(g, n) && b < |g| && forall q :: q in live ==> q < |g|
  {
    if b == root then n.entry[b] == Unknown
    else
      && (forall q: nat, a: Atom :: q in live && BlockRel(g)(q, b) && n.entry[b][a] != 0 ==>
            n.entry[b][a] == n.exit[q][a])
      && forall a: Atom, v: nat :: PredsLeave(g, live, n, b, a, v) ==> n.entry[b][a] == v
  }

  /** Block `b` was numbered from its entry numbers, giving the statements in `g'`. */
  predicate NumberedAt(g: Graph, g': Graph, n: Numbers, alter: bool, b: nat)
    requires Sized(g, n) && |g'| == |g| && b < |g|
  {
    && n.starts[b] <= n.ends[b] <= n.tbl
    && InTable(n.starts[b], n.entry[b])
    && OptStmts(VState(n.starts[b], n.entry[b]), g[b].stmts, alter) == BDone(VState(n.ends[b], n.exit[b]), g'[b].stmts)
    && g'[b] == g[b].(stmts := g'[b].stmts)
  }

  /** The operand's number: a constant's, or X's on exit. */
  predicate OperandAt(g: Graph, n: Numbers, b: nat)
    requires Sized(g, n) && b < |g|
  {
    g[b].s.Jmp? ==>
      if g[b].s.src.FromK? then 0 < n.oval[b] <= |n.tbl| && n.tbl[n.oval[b] - 1] == KImm(g[b].s.k)
      else n.oval[b] == n.exit[b][X_ATOM]
  }

  /** How a pass numbers block `b`. */
  ghost predicate SweptAt(g: Graph, g': Graph, root: nat, live: set<nat>, n: Numbers, alter: bool, b: nat)
    requires Sized(g, n) && |g'| == |g| && b < |g| && forall q :: q in live ==> q < |g|
  {
    NumberedAt(g, g', n, alter, b) && OperandAt(g, n, b) && Joins(g, root, live, n, b)
  }

  /** No statement of block `b` reads an atom numbered 0. */
  predicate ReadsKnownAt(g: Graph, n: Numbers, alter: bool, b: nat)
    requires Sized(g, n) && b < |g|
  {
    InTable(n.starts[b], n.entry[b]) && AllReadsKnown(VState(n.starts[b], n.entry[b]), g[b].stmts, alter)
  }

  ghost predicate NumberedWell(g: Graph, g': Graph, root: nat, live: set<nat>, n: Numbers, alter: bool, b: nat)
    requires Sized(g, n) && |g'| == |g| && b < |g| && forall q :: q in live ==> q < |g|
  {
    SweptAt(g, g', root, live, n, alter, b) && ReadsKnownAt(g, n, alter, b)
  }

  /** The outcome of a numbering pass in which no live statement reads an atom numbered 0. */
  ghost predicate Numbered(g: Graph, g': Graph, root: nat, live: set<nat>, n: Numbers, alter: bool) {
    && Sized(g, n) && |g'| == |g| && Proper(n.tbl) && SuccClosed(g, live) && root < |g|
    && forall b {:trigger NumberedWell(g, g', root, live, n, alter, b)} :: b in live ==>
         NumberedWell(g, g', root, live, n, alter, b)
  }

  lemma ProperPrefix(tbl: Table, tbl': Table)
    requires Proper(tbl') && tbl <= tbl'
    ensures Proper(tbl)
  {
    forall i, v | 0 <= i < |tbl| && v in Operands(tbl[i]) ensures 0 < v <= i {
      assert tbl[i] == tbl'[i];
    }
  }

  /** The state in which a run from `path[0]` in state `st` enters the last block of `path`, if the run
      goes that way. */
  function Follow(g: Graph, path: seq<nat>, st: State, p: Packet): Option<State>
    requires |path| > 0 && forall k :: 0 <= k < |path| ==> path[k] < |g|
  {
    if |path| == 1 then Some(st)
    else
      var q, b := path[|path| - 2], path[|path| - 1];
      match Follow(g, path[..|path| - 1], st, p)
      case None => None
      case Some(t) =>
        match ExecAll(g[q].stmts, t, p)
        case None => None
        case Some(t') => if g[q].s.Jmp? && b == (if Taken(g[q].s, t') then g[q].jt else g[q].jf) then Some(t') else None
  }

  lemma BlockExplained(g: Graph, g': Graph, root: nat, live: set<nat>, n: Numbers, alter: bool, b: nat, st: State,
                       p: Packet)
    requires Numbered(g, g', root, live, n, alter) && b in live
    requires InTable(n.tbl, n.entry[b]) && Explains(n.tbl, n.entry[b], st, p) && ExecAll(g[b].stmts, st, p).Some?
    ensures InTable(n.tbl, n.exit[b]) && Explains(n.tbl, n.exit[b], ExecAll(g[b].stmts, st, p).value, p)
    ensures ExecAll(g'[b].stmts, st, p) == ExecAll(g[b].stmts, st, p)
  {
    assert NumberedWell(g, g', root, live, n, alter, b);
    var vs := VState(n.starts[b], n.entry[b]);
    ProperPrefix(n.starts[b], n.tbl);
    forall a: Atom | n.entry[b][a] != 0 ensures Meaning(n.starts[b], n.entry[b][a], p) == Some(st[a]) {
      MeaningStable(n.starts[b], n.tbl, n.entry[b][a], p);
    }
    BlockRight(vs, g[b].stmts, alter, st, p);
    ExplainsStable(n.ends[b], n.tbl, n.exit[b], ExecAll(g[b].stmts, st, p).value, p);
  }

  /** Numbers survive joins: what explained the exit of a block explains the entry of its successor. */
  lemma JoinExplained(g: Graph, g': Graph, root: nat, live: set<nat>, n: Numbers, alter: bool,
                      q: nat, b: nat, st: State, p: Packet)
    requires Numbered(g, g', root, live, n, alter) && q in live && b in live && b != root && BlockRel(g)(q, b)
    requires InTable(n.tbl, n.exit[q]) && Explains(n.tbl, n.exit[q], st, p)
    ensures InTable(n.tbl, n.entry[b]) && Explains(n.tbl, n.entry[b], st, p)
  {
    assert NumberedWell(g, g', root, live, n, alter, b);
    forall a: Atom | n.entry[b][a] != 0 ensures Meaning(n.tbl, n.entry[b][a], p) == Some(st[a]) {
      assert n.entry[b][a] == n.exit[q][a];
    }
  }

  /** The numbers of block `b` explain a run that enters it in state `t`, and the rewritten block leaves it
      in the same state. */
  predicate ExplainedAt(g: Graph, g': Graph, n: Numbers, b: nat, t: State, p: Packet)
    requires Sized(g, n) && |g'| == |g| && b < |g| && Proper(n.tbl)
  {
    && InTable(n.tbl, n.entry[b]) && Explains(n.tbl, n.entry[b], t, p)
    && (ExecAll(g[b].stmts, t, p).Some? ==>
          && InTable(n.tbl, n.exit[b]) && Explains(n.tbl, n.exit[b], ExecAll(g[b].stmts, t, p).value, p)
          && ExecAll(g'[b].stmts, t, p) == ExecAll(g[b].stmts, t, p))
  }

  lemma EntryExplained(g: Graph, g': Graph, root: nat, live: set<nat>, n: Numbers, alter: bool, b: nat, t: State,
                       p: Packet)
    requires Numbered(g, g', root, live, n, alter) && b in live
    requires InTable(n.tbl, n.entry[b]) && Explains(n.tbl, n.entry[b], t, p)
    ensures ExplainedAt(g, g', n, b, t, p)
  {
    if ExecAll(g[b].stmts, t, p).Some? {
      BlockExplained(g, g', root, live, n, alter, b, t, p);
    }
  }

  /** For each packet one assignment of values to numbers, `Meaning`, explains every known number at the
      entry and exit of every block the run executes, and the rewritten block leaves it in the same
      state. */
  lemma {:induction false} ExecutedExplained(g: Graph, g': Graph, root: nat, live: set<nat>, n: Numbers, alter: bool,
                                             path: seq<nat>, st: State, p: Packet)
    requires Numbered(g, g', root, live, n, alter) && root in live
    requires |path| > 0 && path[0] == root && forall k :: 0 <= k < |path| ==> path[k] < |g|
    requires forall q: nat :: q in live ==> !BlockRel(g)(q, root)
    requires Follow(g, path, st, p).Some?
    ensures path[|path| - 1] in live && ExplainedAt(g, g', n, path[|path| - 1], Follow(g, path, st, p).value, p)
  {
    var b, t := path[|path| - 1], Follow(g, path, st, p).value;
    if |path| > 1 {
      var q := path[|path| - 2];
      ExecutedExplained(g, g', root, live, n, alter, path[..|path| - 1], st, p);
      assert BlockRel(g)(q, b);
      JoinExplained(g, g', root, live, n, alter, q, b, t, p);
    } else {
      assert NumberedWell(g, g', root, live, n, alter, root);
    }
    EntryExplained(g, g', root, live, n, alter, b, t, p);
  }

  lemma {:induction false} NumberedRunFrom(g: Graph, g': Graph, lv: seq<int>, root: nat, live: set<nat>, n: Numbers,
                                           alter: bool, b: nat, st: State, p: Packet)
    requires Leveled(g, lv) && Leveled(g', lv) && Numbered(g, g', root, live, n, alter)
    requires (forall q :: q in live ==> lv[q] >= 0) && forall q: nat :: q in live ==> !BlockRel(g)(q, root)
    requires b in live && InTable(n.tbl, n.entry[b]) && Explains(n.tbl, n.entry[b], st, p)
    requires Run(g, lv, b, st, p) != Abort
    ensures Run(g', lv, b, st, p) == Run(g, lv, b, st, p)
    decreases lv[b]
  {
    assert NumberedWell(g, g', root, live, n, alter, b);
    BlockExplained(g, g', root, live, n, alter, b, st, p);
    var t := ExecAll(g[b].stmts, st, p).value;
    if g[b].s.Jmp? {
      var c := if Taken(g[b].s, t) then g[b].jt else g[b].jf;
      assert BlockRel(g)(b, c);
      JoinExplained(g, g', root, live, n, alter, b, c, t, p);
      NumberedRunFrom(g, g', lv, root, live, n, alter, c, t, p);
    }
  }

  /** Nothing is known at the root. */
  lemma RootExplained(g: Graph, g': Graph, root: nat, live: set<nat>, n: Numbers, alter: bool, st: State, p: Packet)
    requires Numbered(g, g', root, live, n, alter) && root in live
    ensures InTable(n.tbl, n.entry[root]) && Explains(n.tbl, n.entry[root], st, p)
  {
    assert NumberedWell(g, g', root, live, n, alter, root);
    assert n.entry[root] == Unknown;
  }

  /** A numbering pass, rewriting or not, preserves every verdict that is not an abort. */
  lemma NumberedRun(g: Graph, g': Graph, lv: seq<int>, root: nat, live: set<nat>, n: Numbers, alter: bool,
                    st: State, p: Packet)
    requires Leveled(g, lv) && Leveled(g', lv) && Numbered(g, g', root, live, n, alter) && root in live
    requires (forall q :: q in live ==> lv[q] >= 0) && forall q: nat :: q in live ==> !BlockRel(g)(q, root)
    requires Run(g, lv, root, st, p) != Abort
    ensures Run(g', lv, root, st, p) == Run(g, lv, root, st, p)
  {
    RootExplained(g, g', root, live, n, alter, st, p);
    NumberedRunFrom(g, g', lv, root, live, n, alter, root, st, p);
  }
}
