/** Which atoms a statement or branch reads and writes (`atomuse`, `atomdef`), and what that means
    for execution. */
module Atoms {
  import opened Collections
  import opened Machine

  /** The atoms a statement reads. */
  function AtomUse(s: Stmt): set<Atom> {
    match s
    case LdInd(_, _) => {X_ATOM}
    case LdMem(m) => {m}
    case LdxMem(m) => {m}
    case St(_) => {A_ATOM}
    case Stx(_) => {X_ATOM}
    case AluK(_, _) => {A_ATOM}
    case AluX(_) => {A_ATOM, X_ATOM}
    case Neg => {A_ATOM}
    case Tax => {A_ATOM}
    case Txa => {X_ATOM}
    case _ => {}
  }

  /** The one atom a statement writes, if any. */
  function AtomDef(s: Stmt): Option<Atom> {
    match s
    case Nop => None
    case LdxImm(_) => Some(X_ATOM)
    case LdxMem(_) => Some(X_ATOM)
    case LdxMsh(_) => Some(X_ATOM)
    case St(m) => Some(m)
    case Stx(m) => Some(m)
    case Tax => Some(X_ATOM)
    case _ => Some(A_ATOM)
  }

  /** The atoms a branch reads. */
  function BranchUse(s: Branch): set<Atom> {
    match s
    case Jmp(_, src, _) => if src.FromX? then {A_ATOM, X_ATOM} else {A_ATOM}
    case RetK(_) => {}
    case RetA => {A_ATOM}
  }

  predicate Agree(st1: State, st2: State, on: set<Atom>) {
    forall a: Atom :: a in on ==> st1[a] == st2[a]
  }

  /** The value computed is a function of the atoms used. */
  lemma ValueFrame(s: Stmt, st1: State, st2: State, p: Packet)
    requires Agree(st1, st2, AtomUse(s))
    ensures Value(s, st1, p) == Value(s, st2, p)
  {
    assert A_ATOM in AtomUse(s) ==> st1[A_ATOM] == st2[A_ATOM];
    assert X_ATOM in AtomUse(s) ==> st1[X_ATOM] == st2[X_ATOM];
    assert s.LdMem? || s.LdxMem? ==> st1[s.m] == st2[s.m];
  }

  /** A statement changes only what it defines. */
  lemma ExecFrame(s: Stmt, st1: State, st2: State, p: Packet)
    requires Agree(st1, st2, AtomUse(s))
    ensures Exec(s, st1, p).None? <==> Exec(s, st2, p).None?
    ensures Exec(s, st1, p).Some? ==>
              var t1, t2 := Exec(s, st1, p).value, Exec(s, st2, p).value;
              && (forall a: Atom :: AtomDef(s) != Some(a) ==> t1[a] == st1[a] && t2[a] == st2[a])
              && (AtomDef(s).Some? ==> t1[AtomDef(s).value] == t2[AtomDef(s).value])
  {
    ValueFrame(s, st1, st2, p);
    assert s != Nop ==> AtomDef(s) == Some(Dest(s));
  }

  /** The statements and the branch read only atoms in `def` or written earlier in the list. */
  predicate Closed(ss: seq<Stmt>, s: Branch, def: set<Atom>) {
    if ss == [] then BranchUse(s) <= def
    else
      && AtomUse(ss[0]) <= def
      && Closed(ss[1..], s, if AtomDef(ss[0]).Some? then def + {AtomDef(ss[0]).value} else def)
  }

  lemma ClosedCons(x: Stmt, rest: seq<Stmt>, s: Branch, def: set<Atom>)
    ensures Closed([x] + rest, s, def) <==>
              AtomUse(x) <= def && Closed(rest, s, if AtomDef(x).Some? then def + {AtomDef(x).value} else def)
  {
    assert ([x] + rest)[1..] == rest;
  }

  /** What a closed block does cannot depend on atoms outside `def`. */
  lemma {:induction false} ClosedExec(ss: seq<Stmt>, s: Branch, def: set<Atom>, st1: State, st2: State, p: Packet)
    requires Closed(ss, s, def) && Agree(st1, st2, def)
    ensures ExecAll(ss, st1, p).None? <==> ExecAll(ss, st2, p).None?
    ensures ExecAll(ss, st1, p).Some? ==>
              Agree(ExecAll(ss, st1, p).value, ExecAll(ss, st2, p).value, def + BranchUse(s))
    ensures ExecAll(ss, st1, p).Some? && s.Jmp? ==>
              (Taken(s, ExecAll(ss, st1, p).value) <==> Taken(s, ExecAll(ss, st2, p).value))
  {
    if ss != [] {
      ExecFrame(ss[0], st1, st2, p);
      if Exec(ss[0], st1, p).Some? {
        var def' := if AtomDef(ss[0]).Some? then def + {AtomDef(ss[0]).value} else def;
        ClosedExec(ss[1..], s, def', Exec(ss[0], st1, p).value, Exec(ss[0], st2, p).value, p);
      }
    }
  }
}
