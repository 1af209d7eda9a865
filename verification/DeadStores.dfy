/** `opt_deadstores`: delete definitions that nothing can see. */
module DeadStores {
  import opened Collections
  import opened Machine
  import opened Atoms
  import opened Liveness

  predicate AgreeExcept(st1: State, st2: State, off: set<Atom>) {
    forall a: Atom :: a !in off ==> st1[a] == st2[a]
  }

  /** Whenever the statements `ss` run to the end so do `ss'`, with the same atoms except `off`. */
  ghost predicate Refines(ss: seq<Stmt>, ss': seq<Stmt>, off: set<Atom>) {
    forall st: State, p: Packet :: ExecAll(ss, st, p).Some? ==>
      ExecAll(ss', st, p).Some? && AgreeExcept(ExecAll(ss, st, p).value, ExecAll(ss', st, p).value, off)
  }

  /** Whenever the statements `ss` run to the end so do `ss'`, with the same values of `on`. */
  ghost predicate Keeps(ss: seq<Stmt>, ss': seq<Stmt>, on: set<Atom>) {
    forall st: State, p: Packet :: ExecAll(ss, st, p).Some? ==>
      ExecAll(ss', st, p).Some? && Agree(ExecAll(ss, st, p).value, ExecAll(ss', st, p).value, on)
  }

  predicate Ignores(s: Stmt, a: Atom) {
    a !in AtomUse(s) && AtomDef(s) != Some(a)
  }

  /** Statement `i` defines `a`, and nothing after it uses or redefines `a`. */
  predicate Unseen(ss: seq<Stmt>, i: nat, a: Atom) {
    && i < |ss| && AtomDef(ss[i]) == Some(a)
    && forall j :: i < j < |ss| ==> Ignores(ss[j], a)
  }

  lemma {:induction false} IgnoringRun(ss: seq<Stmt>, a: Atom, st1: State, st2: State, p: Packet)
    requires forall j :: 0 <= j < |ss| ==> Ignores(ss[j], a)
    requires AgreeExcept(st1, st2, {a}) && ExecAll(ss, st1, p).Some?
    ensures ExecAll(ss, st2, p).Some? && AgreeExcept(ExecAll(ss, st1, p).value, ExecAll(ss, st2, p).value, {a})
  {
    if ss != [] {
      assert Ignores(ss[0], a);
      ExecFrame(ss[0], st1, st2, p);
      IgnoringRun(ss[1..], a, Exec(ss[0], st1, p).value, Exec(ss[0], st2, p).value, p);
    }
  }

  /** Deleting an unseen definition changes only its own atom. */
  lemma KillUnseen(ss: seq<Stmt>, i: nat, a: Atom)
    requires Unseen(ss, i, a)
    ensures Refines(ss, ss[i := Nop], {a})
  {
    forall st: State, p: Packet | ExecAll(ss, st, p).Some?
      ensures ExecAll(ss[i := Nop], st, p).Some? &&
              AgreeExcept(ExecAll(ss, st, p).value, ExecAll(ss[i := Nop], st, p).value, {a})
    {
      var pre, post := ss[..i], ss[i + 1..];
      assert ss == pre + ([ss[i]] + post) && ss[i := Nop] == pre + ([Nop] + post);
      ExecAllAppend(pre, [ss[i]] + post, st, p);
      ExecAllAppend(pre, [Nop] + post, st, p);
      var t := ExecAll(pre, st, p).value;
      assert ([ss[i]] + post)[1..] == post && ([Nop] + post)[1..] == post;
      ExecFrame(ss[i], t, t, p);
      IgnoringRun(post, a, Exec(ss[i], t, p).value, t, p);
    }
  }

  lemma RefinesTrans(s1: seq<Stmt>, s2: seq<Stmt>, s3: seq<Stmt>, off: set<Atom>, off': set<Atom>)
    requires Refines(s1, s2, off) && Refines(s2, s3, off')
    ensures Refines(s1, s3, off + off')
  {
    forall st: State, p: Packet | ExecAll(s1, st, p).Some?
      ensures ExecAll(s3, st, p).Some? && AgreeExcept(ExecAll(s1, st, p).value, ExecAll(s3, st, p).value, off + off')
    {
      var t1, t2, t3 := ExecAll(s1, st, p).value, ExecAll(s2, st, p).value, ExecAll(s3, st, p).value;
      forall a: Atom | a !in off + off' ensures t1[a] == t3[a] {
        assert t1[a] == t2[a] && t2[a] == t3[a];
      }
    }
  }

  /** Running one more statement: a redefinition hides the atom it defines. */
  lemma RefinesAppend(ss: seq<Stmt>, ss': seq<Stmt>, off: set<Atom>, s: Stmt)
    requires Refines(ss, ss', off) && AtomUse(s) !! off
    ensures Refines(ss + [s], ss' + [s], if AtomDef(s).Some? then off - {AtomDef(s).value} else off)
  {
    var off' := if AtomDef(s).Some? then off - {AtomDef(s).value} else off;
    forall st: State, p: Packet | ExecAll(ss + [s], st, p).Some?
      ensures ExecAll(ss' + [s], st, p).Some? &&
              AgreeExcept(ExecAll(ss + [s], st, p).value, ExecAll(ss' + [s], st, p).value, off')
    {
      ExecAllAppend(ss, [s], st, p);
      ExecAllAppend(ss', [s], st, p);
      ExecFrame(s, ExecAll(ss, st, p).value, ExecAll(ss', st, p).value, p);
    }
  }

  /** `last[a]` is the definition of `a` that nothing has seen yet, or -1. */
  predicate Pending(ss: seq<Stmt>, last: seq<int>) {
    |last| == N_ATOMS && forall a: Atom :: last[a] >= 0 ==> Unseen(ss, last[a], a)
  }

  lemma UnseenAfterKill(ss: seq<Stmt>, i: nat, a: Atom, k: nat, c: Atom)
    requires Unseen(ss, i, a) && Unseen(ss, k, c) && a != c
    ensures Unseen(ss[i := Nop], k, c)
  {
  }

  lemma UnseenAppend(ss: seq<Stmt>, k: nat, c: Atom, s: Stmt)
    requires Unseen(ss, k, c) && Ignores(s, c)
    ensures Unseen(ss + [s], k, c)
  {
  }

  function Forget(last: seq<int>, used: set<Atom>): (r: seq<int>)
    requires |last| == N_ATOMS
    ensures |r| == N_ATOMS
    ensures forall a: Atom :: r[a] == if a in used then -1 else last[a]
  {
    seq(N_ATOMS, a requires 0 <= a < N_ATOMS => if a in used then -1 else last[a])
  }

  /** Statement `i` of `ss[..n]` defines `a`, and nothing after it uses or redefines `a`. */
  predicate OpenAt(ss: seq<Stmt>, i: nat, n: nat, a: Atom) {
    i < n <= |ss| && AtomDef(ss[i]) == Some(a) && forall j :: i < j < n ==> Ignores(ss[j], a)
  }

  /** Statement `i` of `ss[..n]` defines `a`, and `a` is redefined there without having been used. */
  ghost predicate RedefinedAt(ss: seq<Stmt>, i: nat, n: nat, a: Atom) {
    n <= |ss| && exists k: nat :: OpenAt(ss, i, k, a) && k < n && a !in AtomUse(ss[k]) && AtomDef(ss[k]) == Some(a)
  }

  ghost predicate Redefined(ss: seq<Stmt>, i: nat, n: nat) {
    exists a: Atom :: RedefinedAt(ss, i, n, a)
  }

  /** Statement `i` is a dead store, when only the atoms of `on` count at the end. */
  ghost predicate DeadAt(ss: seq<Stmt>, on: set<Atom>, i: nat) {
    Redefined(ss, i, |ss|) || exists a: Atom :: OpenAt(ss, i, |ss|, a) && a !in on
  }

  /** The atoms that deleting the dead stores gives up: those last defined by one. */
  ghost function Dropped(ss: seq<Stmt>, on: set<Atom>): set<Atom> {
    set a: Atom | 0 <= a < N_ATOMS && a !in on && exists i: nat :: OpenAt(ss, i, |ss|, a)
  }

  lemma RefinesMore(ss: seq<Stmt>, ss': seq<Stmt>, off: set<Atom>, off': set<Atom>)
    requires Refines(ss, ss', off) && off <= off'
    ensures Refines(ss, ss', off')
  {
  }

  lemma RefinesKeeps(ss: seq<Stmt>, ss': seq<Stmt>, off: set<Atom>, on: set<Atom>)
    requires Refines(ss, ss', off) && off !! on
    ensures Keeps(ss, ss', on)
  {
  }

  /** The statement that the one after `ss[..n]` makes a dead store, if any. */
  function Killed(last: seq<int>, s: Stmt): int
    requires |last| == N_ATOMS
  {
    if AtomDef(s).Some? then Forget(last, AtomUse(s))[AtomDef(s).value] else -1
  }

  function Later(last: seq<int>, s: Stmt, n: nat): (r: seq<int>)
    requires |last| == N_ATOMS
  {
    if AtomDef(s).Some? then Forget(last, AtomUse(s))[AtomDef(s).value := n] else Forget(last, AtomUse(s))
  }

  /** `ss'` is `ss[..n]` without its redefined stores, and `last` has its open ones. */
  ghost predicate Scanned(ss: seq<Stmt>, n: nat, ss': seq<Stmt>, last: seq<int>) {
    && n <= |ss| && |ss'| == n && |last| == N_ATOMS
    && (forall i: nat, a: Atom :: OpenAt(ss, i, n, a) <==> last[a] == i)
    && forall i :: 0 <= i < n ==> ss'[i] == if Redefined(ss, i, n) then Nop else ss[i]
  }

  lemma OpenNext(ss: seq<Stmt>, i: nat, n: nat, a: Atom)
    requires n < |ss|
    ensures OpenAt(ss, i, n + 1, a) <==>
              || (i == n && AtomDef(ss[n]) == Some(a))
              || (OpenAt(ss, i, n, a) && Ignores(ss[n], a))
  {
  }

  lemma RedefinedNext(ss: seq<Stmt>, i: nat, n: nat, a: Atom)
    requires n < |ss|
    ensures RedefinedAt(ss, i, n + 1, a) <==>
              || RedefinedAt(ss, i, n, a)
              || (OpenAt(ss, i, n, a) && a !in AtomUse(ss[n]) && AtomDef(ss[n]) == Some(a))
  {
  }

  /** Scanning one statement more. */
  lemma ScanNext(ss: seq<Stmt>, n: nat, m: nat, ss': seq<Stmt>, last: seq<int>, after: seq<Stmt>)
    requires n < |ss| && m == n + 1 && Scanned(ss, n, ss', last) && Killed(last, ss[n]) < n
    requires after == (if Killed(last, ss[n]) >= 0 then ss'[Killed(last, ss[n]) := Nop] else ss') + [ss[n]]
    ensures Scanned(ss, m, after, Later(last, ss[n], n))
  {
    var s := ss[n];
    forall i: nat, a: Atom ensures OpenAt(ss, i, m, a) <==> Later(last, s, n)[a] == i {
      OpenNext(ss, i, n, a);
    }
    forall i | 0 <= i <= n ensures after[i] == if Redefined(ss, i, m) then Nop else ss[i] {
      RedefinedBy(ss, n, m, last, i);
    }
  }

  lemma RedefinedBy(ss: seq<Stmt>, n: nat, m: nat, last: seq<int>, i: nat)
    requires i <= n < |ss| && m == n + 1 && |last| == N_ATOMS
    requires forall k: nat, a: Atom :: OpenAt(ss, k, n, a) <==> last[a] == k
    ensures Redefined(ss, i, m) <==> Redefined(ss, i, n) || i == Killed(last, ss[n])
  {
    forall a: Atom
      ensures RedefinedAt(ss, i, m, a) <==>
                (RedefinedAt(ss, i, n, a) || (i == Killed(last, ss[n]) && AtomDef(ss[n]) == Some(a)))
    {
      RedefinedNext(ss, i, n, a);
    }
  }

  /** `deadstmt` on the statement after `ss`: what it uses is seen; what it redefines unseen is dead. */
  method DeadStmt(ss: seq<Stmt>, s: Stmt, last: seq<int>) returns (ss': seq<Stmt>, last': seq<int>)
    requires Pending(ss, last)
    ensures last' == Later(last, s, |ss|) && Killed(last, s) < |ss|
    ensures ss' == (if Killed(last, s) >= 0 then ss[Killed(last, s) := Nop] else ss) + [s]
    ensures Pending(ss', last') && Refines(ss + [s], ss', {})
  {
    ss', last' := ss, Forget(last, AtomUse(s));
    assert Refines(ss, ss', {});
    if AtomDef(s).Some? {
      var a := AtomDef(s).value;
      if last'[a] < 0 {
        RefinesAppend(ss, ss, {}, s);
      } else {
        KillUnseen(ss, last'[a], a);
        RefinesAppend(ss, ss[last'[a] := Nop], {a}, s);
        ss' := ss'[last'[a] := Nop];
        forall c: Atom | c != a && last'[c] >= 0 ensures Unseen(ss', last'[c], c) {
          UnseenAfterKill(ss, last'[a], a, last'[c], c);
        }
      }
      forall c: Atom | c != a && last'[c] >= 0 ensures Unseen(ss' + [s], last'[c], c) {
        UnseenAppend(ss', last'[c], c, s);
      }
      last' := last'[a := |ss|];
    } else {
      RefinesAppend(ss, ss', {}, s);
      forall c: Atom | last'[c] >= 0 ensures Unseen(ss' + [s], last'[c], c) {
        UnseenAppend(ss', last'[c], c, s);
      }
    }
    ss' := ss' + [s];
  }

  /** The first loop of `opt_deadstores`. */
  method ScanStores(ss: seq<Stmt>) returns (ss': seq<Stmt>, last: seq<int>)
    ensures Scanned(ss, |ss|, ss', last) && Pending(ss', last) && Refines(ss, ss', {})
  {
    last := seq(N_ATOMS, _ => -1);
    ss' := [];
    for n := 0 to |ss|
      invariant Scanned(ss, n, ss', last) && Pending(ss', last) && Refines(ss[..n], ss', {})
    {
      RefinesAppend(ss[..n], ss', {}, ss[n]);
      assert ss[..n + 1] == ss[..n] + [ss[n]];
      ghost var before, last0 := ss', last;
      ss', last := DeadStmt(ss', ss[n], last);
      ScanNext(ss, n, n + 1, before, last0, ss');
      RefinesTrans(ss[..n + 1], before + [ss[n]], ss', {}, {});
    }
    assert ss[..|ss|] == ss;
  }

  /** Statement `i` once the second loop has come to `atom`. */
  ghost function DeletedUpTo(ss: seq<Stmt>, open: seq<int>, on: set<Atom>, atom: nat, i: nat): Stmt
    requires i < |ss| && |open| == N_ATOMS
  {
    if Redefined(ss, i, |ss|) || exists a: Atom :: a < atom && open[a] == i && a !in on then Nop else ss[i]
  }

  /** Exactly the dead stores go, and the statements that remain compute every atom live out and every atom
      the branch reads. */
  method OptDeadstores(ss: seq<Stmt>, s: Branch, outUse: set<Atom>) returns (ss': seq<Stmt>)
    ensures |ss'| == |ss|
    ensures forall i :: 0 <= i < |ss| ==> ss'[i] == if DeadAt(ss, outUse + BranchUse(s), i) then Nop else ss[i]
    ensures Refines(ss, ss', Dropped(ss, outUse + BranchUse(s))) && Keeps(ss, ss', outUse + BranchUse(s))
  {
    var last;
    ss', last := ScanStores(ss);
    ghost var open := last;
    last := Forget(last, BranchUse(s));
    ghost var off: set<Atom> := {};
    for atom := 0 to N_ATOMS
      invariant |ss'| == |ss|
      invariant forall i :: 0 <= i < |ss| ==> ss'[i] == DeletedUpTo(ss, open, outUse + BranchUse(s), atom, i)
      invariant forall a: Atom :: atom <= a && last[a] >= 0 ==> Unseen(ss', last[a], a)
      invariant forall a: Atom :: last[a] == if a in BranchUse(s) then -1 else open[a]
      invariant Refines(ss, ss', off) && off <= Dropped(ss, outUse + BranchUse(s))
    {
      if last[atom] >= 0 && atom !in outUse {
        KillUnseen(ss', last[atom], atom);
        RefinesTrans(ss, ss', ss'[last[atom] := Nop], off, {atom});
        forall c: Atom | atom < c && last[c] >= 0 ensures Unseen(ss'[last[atom] := Nop], last[c], c) {
          UnseenAfterKill(ss', last[atom], atom, last[c], c);
        }
        assert OpenAt(ss, open[atom], |ss|, atom);
        ss' := ss'[last[atom] := Nop];
        off := off + {atom};
      }
    }
    RefinesMore(ss, ss', off, Dropped(ss, outUse + BranchUse(s)));
    RefinesKeeps(ss, ss', Dropped(ss, outUse + BranchUse(s)), outUse + BranchUse(s));
  }

  /** `g'` is `g` with the statements of its blocks cleaned, each against its own live-out set. */
  ghost predicate Cleaned(g: Graph, g': Graph, outUse: seq<AtomSet>) {
    && |g'| == |g| == |outUse|
    && (forall b :: 0 <= b < |g| ==> g'[b] == g[b].(stmts := g'[b].stmts))
    && forall b :: 0 <= b < |g| ==> Keeps(g[b].stmts, g'[b].stmts, outUse[b] + BranchUse(g[b].s))
  }

  /** Cleaning all blocks against exact liveness preserves every verdict that is not an abort. */
  lemma {:induction false} CleanedRun(g: Graph, g': Graph, lv: seq<int>, inUse: seq<AtomSet>, outUse: seq<AtomSet>,
                                      b: nat, st: State, st': State, p: Packet)
    requires Leveled(g, lv) && Solves(g, lv, inUse, outUse) && Cleaned(g, g', outUse) && Leveled(g', lv)
    requires b < |g| && lv[b] >= 0 && Agree(st, st', inUse[b])
    requires ReturnsCovered(g, lv) && Run(g, lv, b, st, p) != Abort
    ensures Run(g', lv, b, st', p) == Run(g, lv, b, st, p)
    decreases lv[b]
  {
    assert SolvesAt(g, inUse, outUse, b);
    LiveExec(g[b].stmts, g[b].s, outUse[b], st, st', p);
    var t := ExecAll(g[b].stmts, st, p).value;
    var t1 := ExecAll(g[b].stmts, st', p).value;
    assert Keeps(g[b].stmts, g'[b].stmts, outUse[b] + BranchUse(g[b].s));
    var t2 := ExecAll(g'[b].stmts, st', p).value;
    assert Agree(t1, t2, outUse[b] + BranchUse(g[b].s));
    if g[b].s.Jmp? {
      assert t[A_ATOM] == t1[A_ATOM] == t2[A_ATOM];
      assert g[b].s.src.FromX? ==> t[X_ATOM] == t1[X_ATOM] == t2[X_ATOM];
      var n := if Taken(g[b].s, t) then g[b].jt else g[b].jf;
      assert Agree(t, t2, inUse[n]) by {
        forall a: Atom | a in inUse[n] ensures t[a] == t2[a] { assert a in outUse[b]; }
      }
      CleanedRun(g, g', lv, inUse, outUse, n, t, t2, p);
    } else {
      LeafAgrees(g[b], st, st', p);
    }
  }
}
