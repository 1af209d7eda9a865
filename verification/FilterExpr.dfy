/** Boolean filter expressions, their meaning on a packet, and the simple form of their code: the
    branch targets a compiler with known continuations would write down. */
module FilterExpr {
  import opened Collections
  import opened Machine
  import opened Atoms
  import opened ClosedGraph

  datatype Test = Test(stmts: seq<Stmt>, s: Branch)

  datatype Expr =
    | Leaf(test: Test)
    | Not(e: Expr)
    | Conj(l: Expr, r: Expr)
    | Disj(l: Expr, r: Expr)

  /** A test block as the generator makes it: it ends in a conditional branch and uses nothing that
      an earlier block left behind. */
  predicate SelfContained(t: Test) {
    t.s.Jmp? && Closed(t.stmts, t.s, {})
  }

  predicate Proper(e: Expr) {
    match e
    case Leaf(t) => SelfContained(t)
    case Not(e) => Proper(e)
    case Conj(l, r) => Proper(l) && Proper(r)
    case Disj(l, r) => Proper(l) && Proper(r)
  }

  const ZeroState: State := [0, 0, 0, 0, 0, 0, 0, 0, 0, 0, 0, 0, 0, 0, 0, 0, 0, 0]

  /** Outcome of one test on a packet; `None` if it aborts. */
  function TestValue(t: Test, p: Packet): Option<bool>
    requires t.s.Jmp?
  {
    match ExecAll(t.stmts, ZeroState, p)
    case None => None
    case Some(st) => Some(Taken(t.s, st))
  }

  /** Meaning of an expression: left to right, short-circuit, aborting when a test that is reached
      aborts. */
  function Eval(e: Expr, p: Packet): Option<bool>
    requires Proper(e)
  {
    match e
    case Leaf(t) => TestValue(t, p)
    case Not(e) =>
      (match Eval(e, p)
       case None => None
       case Some(v) => Some(!v))
    case Conj(l, r) =>
      (match Eval(l, p)
       case None => None
       case Some(v) => if v then Eval(r, p) else Some(false))
    case Disj(l, r) =>
      (match Eval(l, p)
       case None => None
       case Some(v) => if v then Some(true) else Eval(r, p))
  }

  function Span(e: Expr): (n: nat)
    ensures n > 0
  {
    match e
    case Leaf(_) => 1
    case Not(e0) => Span(e0)
    case Conj(l, r) => Span(l) + Span(r)
    case Disj(l, r) => Span(l) + Span(r)
  }

  /** Where a branch of an expression's code leads: a block, or out of the expression. */
  datatype Target = To(n: nat) | IfTrue | IfFalse

  datatype Exits = Exits(jt: Target, jf: Target)

  /** The expression's blocks are its tests in source order from `lo` on; this is block `i`'s test. */
  function TestAt(e: Expr, lo: nat, i: nat): (t: Test)
    requires lo <= i < lo + Span(e)
  {
    match e
    case Leaf(t) => t
    case Not(e0) => TestAt(e0, lo, i)
    case Conj(l, r) => if i < lo + Span(l) then TestAt(l, lo, i) else TestAt(r, lo + Span(l), i)
    case Disj(l, r) => if i < lo + Span(l) then TestAt(l, lo, i) else TestAt(r, lo + Span(l), i)
  }

  /** Block `i`'s branches, when the expression is to leave for `yes` and `no`. */
  function ExitsAt(e: Expr, lo: nat, i: nat, yes: Target, no: Target): Exits
    requires lo <= i < lo + Span(e)
  {
    match e
    case Leaf(_) => Exits(yes, no)
    case Not(e0) => ExitsAt(e0, lo, i, no, yes)
    case Conj(l, r) =>
      if i < lo + Span(l) then ExitsAt(l, lo, i, To(lo + Span(l)), no) else ExitsAt(r, lo + Span(l), i, yes, no)
    case Disj(l, r) =>
      if i < lo + Span(l) then ExitsAt(l, lo, i, yes, To(lo + Span(l))) else ExitsAt(r, lo + Span(l), i, yes, no)
  }

  /** `b` is the block for test `t` with exits `c`. */
  predicate Places(b: Block, t: Test, c: Exits) {
    b.stmts == t.stmts && b.s == t.s && c == Exits(To(b.jt), To(b.jf))
  }

  /** `g` holds the code of `e` from block `lo` on, leaving for blocks `yes` and `no`. */
  predicate Holds(g: Graph, e: Expr, lo: nat, yes: nat, no: nat) {
    && lo + Span(e) <= |g|
    && forall i :: lo <= i < lo + Span(e) ==> Places(g[i], TestAt(e, lo, i), ExitsAt(e, lo, i, To(yes), To(no)))
  }

  function Choose(v: Option<bool>, yes: Outcome, no: Outcome): Outcome {
    match v
    case None => Abort
    case Some(true) => yes
    case Some(false) => no
  }

  predicate AllLeveled(lv: seq<int>, lo: nat, hi: nat) {
    hi <= |lv| && forall i :: lo <= i < hi ==> lv[i] >= 0
  }

  /** The code of a pair is the code of its operands, the first leaving for the second's first block. */
  lemma HoldsBoth(g: Graph, e: Expr, l: Expr, r: Expr, lo: nat, mid: nat, yes: nat, no: nat)
    requires (e == Conj(l, r) || e == Disj(l, r)) && mid == lo + Span(l) && Holds(g, e, lo, yes, no)
    ensures if e.Conj? then Holds(g, l, lo, mid, no) else Holds(g, l, lo, yes, mid)
    ensures Holds(g, r, mid, yes, no)
  {
  }

  /** The simple form is right: entering at the first block, control leaves for `yes` or `no` as
      the expression is true or false of the packet. */
  lemma {:induction false} CodeCorrect(g: Graph, lv: seq<int>, e: Expr, lo: nat, yes: nat, no: nat, p: Packet)
    requires Leveled(g, lv) && Proper(e)
    requires Holds(g, e, lo, yes, no)
    requires AllLeveled(lv, lo, lo + Span(e))
    requires yes < |g| && no < |g| && lv[yes] >= 0 && lv[no] >= 0
    ensures Decide(g, lv, lo, ZeroState, p) ==
            Choose(Eval(e, p), Decide(g, lv, yes, ZeroState, p), Decide(g, lv, no, ZeroState, p))
  {
    match e
    case Leaf(t) =>
      assert Places(g[lo], t, Exits(To(yes), To(no)));
    case Not(e0) =>
      CodeCorrect(g, lv, e0, lo, no, yes, p);
    case Conj(l, r) =>
      var mid := lo + Span(l);
      HoldsBoth(g, e, l, r, lo, mid, yes, no);
      CodeCorrect(g, lv, r, mid, yes, no, p);
      CodeCorrect(g, lv, l, lo, mid, no, p);
    case Disj(l, r) =>
      var mid := lo + Span(l);
      HoldsBoth(g, e, l, r, lo, mid, yes, no);
      CodeCorrect(g, lv, r, mid, yes, no, p);
      CodeCorrect(g, lv, l, lo, yes, mid, p);
  }

  predicate Forward(c: Target, i: nat, hi: nat, yes: Target, no: Target) {
    c == yes || c == no || (c.To? && i < c.n < hi)
  }

  /** Code only jumps forward, inside the expression's own blocks or out of them. */
  lemma {:induction false} CodeForward(e: Expr, lo: nat, i: nat, yes: Target, no: Target)
    requires lo <= i < lo + Span(e)
    ensures Forward(ExitsAt(e, lo, i, yes, no).jt, i, lo + Span(e), yes, no)
    ensures Forward(ExitsAt(e, lo, i, yes, no).jf, i, lo + Span(e), yes, no)
  {
    match e
    case Leaf(_) =>
    case Not(e0) => CodeForward(e0, lo, i, no, yes);
    case Conj(l, r) =>
      if i < lo + Span(l) {
        CodeForward(l, lo, i, To(lo + Span(l)), no);
      } else {
        CodeForward(r, lo + Span(l), i, yes, no);
      }
    case Disj(l, r) =>
      if i < lo + Span(l) {
        CodeForward(l, lo, i, yes, To(lo + Span(l)));
      } else {
        CodeForward(r, lo + Span(l), i, yes, no);
      }
  }
}
