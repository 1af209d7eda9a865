/** Backpatching: the generator threads unresolved exits through the branch fields of the blocks
    themselves and patches them in place.

    The arena `blocks` stands for the generator's heap chunks: a pointer is an index, null is -1. */
module Backpatch {
  import opened Collections
  import opened Machine
  import opened ClosedGraph
  import opened FilterExpr

  const NULL: int := -1

  datatype Cell = Cell(stmts: seq<Stmt>, s: Branch, jt: int, jf: int, sense: bool, head: nat)

  /** The branch field that `sense` marks as the link to the next unresolved block. */
  function Link(c: Cell): int {
    if !c.sense then c.jt else c.jf
  }

  function Other(c: Cell): int {
    if !c.sense then c.jf else c.jt
  }

  function SetLink(c: Cell, t: int): Cell {
    if !c.sense then c.(jt := t) else c.(jf := t)
  }

  function Flip(c: Cell): Cell {
    c.(sense := !c.sense)
  }

  function Entry(ids: seq<nat>, k: nat): int {
    if k < |ids| then ids[k] else NULL
  }

  /** `ids` is the list of blocks threaded from its first one. */
  predicate Threaded(bs: seq<Cell>, ids: seq<nat>) {
    && Distinct(ids)
    && (forall k :: 0 <= k < |ids| ==> ids[k] < |bs|)
    && forall k {:trigger Link(bs[ids[k]])} :: 0 <= k < |ids| ==> Link(bs[ids[k]]) == Entry(ids, k + 1)
  }

  /** The blocks of `e` with an unresolved true exit, newest first, and those with a false one. */
  function TrueList(e: Expr, lo: nat): (ids: seq<nat>) {
    match e
    case Leaf(_) => [lo]
    case Not(e0) => FalseList(e0, lo)
    case Conj(l, r) => TrueList(r, lo + Span(l))
    case Disj(l, r) => TrueList(r, lo + Span(l)) + TrueList(l, lo)
  }

  function FalseList(e: Expr, lo: nat): (ids: seq<nat>) {
    match e
    case Leaf(_) => [lo]
    case Not(e0) => TrueList(e0, lo)
    case Conj(l, r) => FalseList(r, lo + Span(l)) + FalseList(l, lo)
    case Disj(l, r) => FalseList(r, lo + Span(l))
  }

  predicate InRange(ids: seq<nat>, lo: nat, hi: nat) {
    |ids| > 0 && ids[0] == hi - 1 && forall k :: 0 <= k < |ids| ==> lo <= ids[k] < hi
  }

  lemma AppendRange(ids: seq<nat>, ids': seq<nat>, lo: nat, mid: nat, hi: nat)
    requires lo <= mid <= hi && InRange(ids, mid, hi) && InRange(ids', lo, mid) && Distinct(ids) && Distinct(ids')
    ensures InRange(ids + ids', lo, hi) && Distinct(ids + ids')
  {
  }

  /** Both lists are headed by the newest block and have no repetitions. */
  lemma {:induction false} ListShape(e: Expr, lo: nat)
    ensures InRange(TrueList(e, lo), lo, lo + Span(e)) && InRange(FalseList(e, lo), lo, lo + Span(e))
    ensures Distinct(TrueList(e, lo)) && Distinct(FalseList(e, lo))
  {
    match e
    case Leaf(_) =>
    case Not(e0) => ListShape(e0, lo);
    case Conj(l, r) =>
      ListShape(l, lo);
      ListShape(r, lo + Span(l));
      AppendRange(FalseList(r, lo + Span(l)), FalseList(l, lo), lo, lo + Span(l), lo + Span(e));
    case Disj(l, r) =>
      ListShape(l, lo);
      ListShape(r, lo + Span(l));
      AppendRange(TrueList(r, lo + Span(l)), TrueList(l, lo), lo, lo + Span(l), lo + Span(e));
  }

  predicate Leads(x: Exits, t: Target) {
    x.jt == t || x.jf == t
  }

  function Retarget(t: Target, yes: Target, no: Target): Target {
    match t
    case To(_) => t
    case IfTrue => yes
    case IfFalse => no
  }

  /** Sending the open exits elsewhere afterwards is the same as having known the targets. */
  lemma {:induction false} RetargetExits(e: Expr, lo: nat, i: nat, a: Target, b: Target, yes: Target, no: Target)
    requires lo <= i < lo + Span(e)
    ensures ExitsAt(e, lo, i, Retarget(a, yes, no), Retarget(b, yes, no)) ==
            Exits(Retarget(ExitsAt(e, lo, i, a, b).jt, yes, no), Retarget(ExitsAt(e, lo, i, a, b).jf, yes, no))
  {
    match e
    case Leaf(_) =>
    case Not(e0) => RetargetExits(e0, lo, i, b, a, yes, no);
    case Conj(l, r) =>
      if i < lo + Span(l) {
        RetargetExits(l, lo, i, To(lo + Span(l)), b, yes, no);
      } else {
        RetargetExits(r, lo + Span(l), i, a, b, yes, no);
      }
    case Disj(l, r) =>
      if i < lo + Span(l) {
        RetargetExits(l, lo, i, a, To(lo + Span(l)), yes, no);
      } else {
        RetargetExits(r, lo + Span(l), i, a, b, yes, no);
      }
  }

  function RetargetBoth(x: Exits, yes: Target, no: Target): Exits {
    Exits(Retarget(x.jt, yes, no), Retarget(x.jf, yes, no))
  }

  /** Block `i`'s place on the lists matches its exits, and only the newest block has two open ones. */
  predicate Member(x: Exits, onTrue: bool, onFalse: bool, newest: bool) {
    && (onTrue <==> Leads(x, IfTrue))
    && (onFalse <==> Leads(x, IfFalse))
    && (if newest then Leads(x, IfTrue) && Leads(x, IfFalse) else x.jt.To? || x.jf.To?)
  }

  /** A block is on the true (false) list exactly when it has an unresolved true (false) exit, and
      only the newest block has two unresolved exits. */
  lemma {:induction false} ListMembers(e: Expr, lo: nat, i: nat)
    requires lo <= i < lo + Span(e)
    ensures Member(ExitsAt(e, lo, i, IfTrue, IfFalse), i in TrueList(e, lo), i in FalseList(e, lo),
                   i == lo + Span(e) - 1)
    decreases e, 1
  {
    match e
    case Leaf(_) =>
    case Not(e0) =>
      ListMembers(e0, lo, i);
      RetargetExits(e0, lo, i, IfTrue, IfFalse, IfFalse, IfTrue);
    case Conj(l, r) => PairMembers(e, l, r, lo, i);
    case Disj(l, r) => PairMembers(e, l, r, lo, i);
  }

  /** Resolving one kind of open exit takes the block off that list. */
  lemma ResolvedMember(x: Exits, mid: nat, onTrue: bool, onFalse: bool, newest: bool)
    requires Member(x, onTrue, onFalse, newest)
    ensures Member(RetargetBoth(x, To(mid), IfFalse), false, onFalse, false)
    ensures Member(RetargetBoth(x, IfTrue, To(mid)), onTrue, false, false)
  {
  }

  lemma {:induction false} PairMembers(e: Expr, l: Expr, r: Expr, lo: nat, i: nat)
    requires e == Conj(l, r) || e == Disj(l, r)
    requires lo <= i < lo + Span(e)
    ensures Member(ExitsAt(e, lo, i, IfTrue, IfFalse), i in TrueList(e, lo), i in FalseList(e, lo),
                   i == lo + Span(e) - 1)
    decreases e, 0
  {
    var mid := lo + Span(l);
    ListShape(l, lo);
    ListShape(r, mid);
    if i < mid {
      var x := ExitsAt(l, lo, i, IfTrue, IfFalse);
      ListMembers(l, lo, i);
      ResolvedMember(x, mid, i in TrueList(l, lo), i in FalseList(l, lo), i == mid - 1);
      assert i !in TrueList(r, mid) && i !in FalseList(r, mid);
      RetargetExits(l, lo, i, IfTrue, IfFalse, To(mid), IfFalse);
      RetargetExits(l, lo, i, IfTrue, IfFalse, IfTrue, To(mid));
      assert ExitsAt(e, lo, i, IfTrue, IfFalse) ==
             if e.Conj? then RetargetBoth(x, To(mid), IfFalse) else RetargetBoth(x, IfTrue, To(mid));
    } else {
      assert i !in TrueList(l, lo) && i !in FalseList(l, lo);
      ListMembers(r, mid, i);
    }
  }

  /** One block of a fragment.  The newest block has both exits open; any other block has at most
      one, in the field its `sense` names. */
  predicate CellOk(c: Cell, t: Test, x: Exits, newest: bool) {
    && c.stmts == t.stmts && c.s == t.s
    && if newest then x == (if !c.sense then Exits(IfTrue, IfFalse) else Exits(IfFalse, IfTrue))
       else
         var open, closed := if !c.sense then x.jt else x.jf, if !c.sense then x.jf else x.jt;
         closed.To? && Other(c) == closed.n && (open.To? ==> Link(c) == open.n)
  }

  function Swapped(bs: seq<Cell>, b: nat): (r: seq<Cell>)
    requires b < |bs|
  {
    bs[b := Flip(bs[b])]
  }

  predicate Threads(bs: seq<Cell>, lo: nat, hi: nat, ts: seq<nat>, fs: seq<nat>) {
    0 < hi <= |bs| && Threaded(bs, ts) && Threaded(Swapped(bs, hi - 1), fs) && bs[hi - 1].head == lo
  }

  predicate CellFor(c: Cell, e: Expr, lo: nat, i: nat)
    requires lo <= i < lo + Span(e)
  {
    CellOk(c, TestAt(e, lo, i), ExitsAt(e, lo, i, IfTrue, IfFalse), i == lo + Span(e) - 1)
  }

  predicate Cells(bs: seq<Cell>, e: Expr, lo: nat) {
    && lo + Span(e) <= |bs|
    && forall i {:trigger CellFor(bs[i], e, lo, i)} :: lo <= i < lo + Span(e) ==> CellFor(bs[i], e, lo, i)
  }

  /** The blocks from `lo` on are the partly resolved code of `e`, its open exits threaded on its true
      and false lists. */
  predicate Fragment(bs: seq<Cell>, e: Expr, lo: nat) {
    Threads(bs, lo, lo + Span(e), TrueList(e, lo), FalseList(e, lo)) && Cells(bs, e, lo)
  }

  predicate SameInside(bs: seq<Cell>, bs': seq<Cell>, lo: nat, hi: nat) {
    hi <= |bs| && hi <= |bs'| && forall i :: lo <= i < hi ==> bs'[i] == bs[i]
  }

  lemma ThreadsFrame(bs: seq<Cell>, bs': seq<Cell>, lo: nat, hi: nat, ids: seq<nat>)
    requires SameInside(bs, bs', lo, hi) && InRange(ids, lo, hi) && Threaded(bs, ids)
    ensures Threaded(bs', ids)
  {
    forall k | 0 <= k < |ids| ensures Link(bs'[ids[k]]) == Entry(ids, k + 1) {
      assert Link(bs[ids[k]]) == Entry(ids, k + 1);
    }
  }

  /** List `ids` of blocks `lo..hi` shares only its first block with list `ids'`. */
  predicate MeetAtHead(ids: seq<nat>, ids': seq<nat>, lo: nat, hi: nat) {
    && InRange(ids, lo, hi) && InRange(ids', lo, hi) && Distinct(ids) && Distinct(ids')
    && forall i :: i in ids && i in ids' ==> i == hi - 1
  }

  lemma ListsMeet(e: Expr, lo: nat)
    ensures MeetAtHead(TrueList(e, lo), FalseList(e, lo), lo, lo + Span(e))
  {
    ListShape(e, lo);
    forall i | i in TrueList(e, lo) && i in FalseList(e, lo) ensures i == lo + Span(e) - 1 {
      ListMembers(e, lo, i);
    }
  }

  /** A fragment from its parts. */
  lemma IsFragment(bs: seq<Cell>, e: Expr, lo: nat, hi: nat, ts: seq<nat>, fs: seq<nat>)
    requires hi == lo + Span(e) && ts == TrueList(e, lo) && fs == FalseList(e, lo)
    requires Threads(bs, lo, hi, ts, fs) && Cells(bs, e, lo)
    ensures Fragment(bs, e, lo)
  {
  }

  lemma FragmentParts(bs: seq<Cell>, e: Expr, lo: nat, hi: nat, ts: seq<nat>, fs: seq<nat>)
    requires hi == lo + Span(e) && ts == TrueList(e, lo) && fs == FalseList(e, lo) && Fragment(bs, e, lo)
    ensures Threads(bs, lo, hi, ts, fs) && Cells(bs, e, lo) && MeetAtHead(ts, fs, lo, hi)
  {
    ListsMeet(e, lo);
  }

  /** A fragment is a matter of its own blocks only. */
  lemma FragmentFrame(bs: seq<Cell>, bs': seq<Cell>, e: Expr, lo: nat, hi: nat)
    requires Fragment(bs, e, lo) && hi == lo + Span(e) && SameInside(bs, bs', lo, hi)
    ensures Fragment(bs', e, lo)
  {
    var ts, fs := TrueList(e, lo), FalseList(e, lo);
    FragmentParts(bs, e, lo, hi, ts, fs);
    ThreadsFrame(bs, bs', lo, hi, ts);
    ThreadsFrame(Swapped(bs, hi - 1), Swapped(bs', hi - 1), lo, hi, fs);
    forall i | lo <= i < hi ensures CellFor(bs'[i], e, lo, i) {
      assert CellFor(bs[i], e, lo, i);
    }
    IsFragment(bs', e, lo, hi, ts, fs);
  }

  lemma NotShape(e: Expr, lo: nat)
    ensures Span(Not(e)) == Span(e)
    ensures TrueList(Not(e), lo) == FalseList(e, lo) && FalseList(Not(e), lo) == TrueList(e, lo)
  {
  }

  lemma NotThreads(bs: seq<Cell>, lo: nat, hi: nat, ts: seq<nat>, fs: seq<nat>)
    requires Threads(bs, lo, hi, ts, fs)
    ensures Threads(Swapped(bs, hi - 1), lo, hi, fs, ts)
  {
    assert Swapped(Swapped(bs, hi - 1), hi - 1) == bs;
  }

  lemma NotCell(c: Cell, e: Expr, lo: nat, i: nat)
    requires lo <= i < lo + Span(e) && CellFor(c, e, lo, i)
    ensures Span(Not(e)) == Span(e) && CellFor(if i == lo + Span(e) - 1 then Flip(c) else c, Not(e), lo, i)
  {
    RetargetExits(e, lo, i, IfTrue, IfFalse, IfFalse, IfTrue);
    assert ExitsAt(Not(e), lo, i, IfTrue, IfFalse) == RetargetBoth(ExitsAt(e, lo, i, IfTrue, IfFalse), IfFalse, IfTrue);
  }

  lemma NotCells(bs: seq<Cell>, e: Expr, lo: nat, b: nat)
    requires Cells(bs, e, lo) && b == lo + Span(e) - 1
    ensures Cells(Swapped(bs, b), Not(e), lo)
  {
    NotShape(e, lo);
    forall i | lo <= i <= b ensures CellFor(Swapped(bs, b)[i], Not(e), lo, i) {
      NotCell(bs[i], e, lo, i);
    }
  }

  /** `gen_not`: swapping the lists negates the expression. */
  lemma NotFragment(bs: seq<Cell>, bs': seq<Cell>, e: Expr, lo: nat, b: nat)
    requires Fragment(bs, e, lo) && b == lo + Span(e) - 1 && bs' == Swapped(bs, b)
    ensures Fragment(bs', Not(e), lo)
  {
    var ts, fs := TrueList(e, lo), FalseList(e, lo);
    FragmentParts(bs, e, lo, b + 1, ts, fs);
    NotThreads(bs, lo, b + 1, ts, fs);
    NotCells(bs, e, lo, b);
    NotShape(e, lo);
    IsFragment(bs', Not(e), lo, b + 1, fs, ts);
  }

  /** The cells after `gen_and` of fragments ending in `b0` and `b1`: the true list of the first leads
      to `head`, and the false list of the second, ending in `last`, goes on into the first's. */
  function AndCell(c: Cell, i: nat, b0: nat, b1: nat, head: nat, onTrue: bool, last: nat, lo: nat): Cell {
    if i == b0 then Flip(SetLink(c, head))
    else if onTrue then SetLink(c, head)
    else if i == b1 then (if last == b1 then Flip(SetLink(Flip(c), b0)) else c).(head := lo)
    else if i == last then SetLink(c, b0)
    else c
  }

  predicate Anded(bs: seq<Cell>, bs': seq<Cell>, lo: nat, mid: nat, hi: nat, ts: seq<nat>, last: nat) {
    && |bs'| == |bs|
    && 0 < mid < hi
    && forall i :: 0 <= i < |bs| ==> bs'[i] == AndCell(bs[i], i, mid - 1, hi - 1, mid, i in ts, last, lo)
  }

  lemma ConjTrueList(bs: seq<Cell>, bs': seq<Cell>, lo: nat, mid: nat, hi: nat, ts0: seq<nat>, ts1: seq<nat>,
                     fs1: seq<nat>)
    requires 0 < mid < hi <= |bs| && InRange(ts0, lo, mid) && MeetAtHead(ts1, fs1, mid, hi)
    requires Threaded(bs, ts1) && Anded(bs, bs', lo, mid, hi, ts0, fs1[|fs1| - 1])
    ensures Threaded(bs', ts1)
  {
    forall k | 0 <= k < |ts1| ensures Link(bs'[ts1[k]]) == Entry(ts1, k + 1) {
      assert Link(bs[ts1[k]]) == Entry(ts1, k + 1);
      assert ts1[k] !in ts0;
      assert ts1[k] == fs1[|fs1| - 1] ==> ts1[k] in fs1;
    }
  }

  lemma ConjFalseList(bs: seq<Cell>, bs': seq<Cell>, lo: nat, mid: nat, hi: nat, ts0: seq<nat>, fs0: seq<nat>,
                      fs1: seq<nat>)
    requires 0 < mid < hi <= |bs| && MeetAtHead(ts0, fs0, lo, mid) && InRange(fs1, mid, hi)
    requires Threaded(Swapped(bs, mid - 1), fs0) && Threaded(Swapped(bs, hi - 1), fs1)
    requires Anded(bs, bs', lo, mid, hi, ts0, fs1[|fs1| - 1])
    ensures Threaded(Swapped(bs', hi - 1), fs1 + fs0)
  {
    var fs := fs1 + fs0;
    AppendRange(fs1, fs0, lo, mid, hi);
    forall k | 0 <= k < |fs| ensures Link(Swapped(bs', hi - 1)[fs[k]]) == Entry(fs, k + 1) {
      if k < |fs1| {
        assert fs[k] == fs1[k] && fs1[k] !in ts0;
        assert Link(Swapped(bs, hi - 1)[fs1[k]]) == Entry(fs1, k + 1);
        assert k + 1 < |fs1| ==> fs1[k] != fs1[|fs1| - 1];
      } else {
        var j := k - |fs1|;
        assert fs[k] == fs0[j] && Entry(fs0, j + 1) == Entry(fs, k + 1);
        assert Link(Swapped(bs, mid - 1)[fs0[j]]) == Entry(fs0, j + 1);
        assert fs0[j] in fs0;
      }
    }
  }

  lemma ConjThreads(bs: seq<Cell>, bs': seq<Cell>, lo: nat, mid: nat, hi: nat,
                    ts0: seq<nat>, fs0: seq<nat>, ts1: seq<nat>, fs1: seq<nat>)
    requires MeetAtHead(ts0, fs0, lo, mid) && MeetAtHead(ts1, fs1, mid, hi)
    requires Threads(bs, lo, mid, ts0, fs0) && Threads(bs, mid, hi, ts1, fs1)
    requires Anded(bs, bs', lo, mid, hi, ts0, fs1[|fs1| - 1])
    ensures Threads(bs', lo, hi, ts1, fs1 + fs0)
  {
    ConjTrueList(bs, bs', lo, mid, hi, ts0, ts1, fs1);
    ConjFalseList(bs, bs', lo, mid, hi, ts0, fs0, fs1);
    assert hi - 1 !in ts0;
  }

  lemma ConjShape(l: Expr, r: Expr, lo: nat)
    ensures Span(Conj(l, r)) == Span(l) + Span(r)
    ensures TrueList(Conj(l, r), lo) == TrueList(r, lo + Span(l))
    ensures FalseList(Conj(l, r), lo) == FalseList(r, lo + Span(l)) + FalseList(l, lo)
  {
  }

  lemma AndCellLeft(c: Cell, l: Expr, r: Expr, lo: nat, i: nat, mid: nat, hi: nat, last: nat)
    requires mid == lo + Span(l) && hi == mid + Span(r) && lo <= i < mid <= last && CellFor(c, l, lo, i)
    ensures CellFor(AndCell(c, i, mid - 1, hi - 1, mid, i in TrueList(l, lo), last, lo), Conj(l, r), lo, i)
  {
    ListMembers(l, lo, i);
    RetargetExits(l, lo, i, IfTrue, IfFalse, To(mid), IfFalse);
    assert ExitsAt(Conj(l, r), lo, i, IfTrue, IfFalse) ==
      RetargetBoth(ExitsAt(l, lo, i, IfTrue, IfFalse), To(mid), IfFalse);
    assert TestAt(Conj(l, r), lo, i) == TestAt(l, lo, i);
  }

  lemma AndCellRight(c: Cell, l: Expr, r: Expr, lo: nat, i: nat, mid: nat, hi: nat, last: nat)
    requires mid == lo + Span(l) && hi == mid + Span(r) && mid <= i < hi && CellFor(c, r, mid, i)
    requires i == last ==> i in FalseList(r, mid)
    ensures CellFor(AndCell(c, i, mid - 1, hi - 1, mid, false, last, lo), Conj(l, r), lo, i)
  {
    ListMembers(r, mid, i);
    assert ExitsAt(Conj(l, r), lo, i, IfTrue, IfFalse) == ExitsAt(r, mid, i, IfTrue, IfFalse);
    assert TestAt(Conj(l, r), lo, i) == TestAt(r, mid, i);
  }

  lemma ConjCells(bs: seq<Cell>, bs': seq<Cell>, l: Expr, r: Expr, lo: nat, mid: nat, hi: nat, ts: seq<nat>, last: nat)
    requires mid == lo + Span(l) && hi == mid + Span(r) && ts == TrueList(l, lo)
    requires Cells(bs, l, lo) && Cells(bs, r, mid)
    requires last >= mid && last in FalseList(r, mid) && Anded(bs, bs', lo, mid, hi, ts, last)
    ensures Cells(bs', Conj(l, r), lo)
  {
    ListShape(l, lo);
    forall i | lo <= i < hi ensures CellFor(bs'[i], Conj(l, r), lo, i) {
      if i < mid {
        AndCellLeft(bs[i], l, r, lo, i, mid, hi, last);
      } else {
        assert i !in ts;
        AndCellRight(bs[i], l, r, lo, i, mid, hi, last);
      }
    }
  }

  function Last(ids: seq<nat>): (i: nat)
    requires |ids| > 0
  {
    ids[|ids| - 1]
  }

  /** `gen_and`: patching the true list and merging the false lists conjoins the expressions. */
  lemma ConjFragment(bs: seq<Cell>, bs': seq<Cell>, l: Expr, r: Expr, lo: nat, mid: nat, hi: nat,
                     ts0: seq<nat>, fs1: seq<nat>)
    requires mid == lo + Span(l) && hi == mid + Span(r) && ts0 == TrueList(l, lo) && fs1 == FalseList(r, mid)
    requires |fs1| > 0
    requires Fragment(bs, l, lo) && Fragment(bs, r, mid) && Anded(bs, bs', lo, mid, hi, ts0, Last(fs1))
    ensures Fragment(bs', Conj(l, r), lo)
  {
    var fs0, ts1 := FalseList(l, lo), TrueList(r, mid);
    FragmentParts(bs, l, lo, mid, ts0, fs0);
    FragmentParts(bs, r, mid, hi, ts1, fs1);
    ConjThreads(bs, bs', lo, mid, hi, ts0, fs0, ts1, fs1);
    ConjCells(bs, bs', l, r, lo, mid, hi, ts0, Last(fs1));
    ConjShape(l, r, lo);
    IsFragment(bs', Conj(l, r), lo, hi, ts1, fs1 + fs0);
  }

  function Patched(bs: seq<Cell>, ids: seq<nat>, t: nat): (r: seq<Cell>)
    ensures |r| == |bs|
    ensures forall i :: 0 <= i < |bs| ==> r[i] == if i in ids then SetLink(bs[i], t) else bs[i]
  {
    seq(|bs|, i requires 0 <= i < |bs| => if i in ids then SetLink(bs[i], t) else bs[i])
  }

  function Joined(bs: seq<Cell>, last: nat, b: nat): (r: seq<Cell>)
    requires last < |bs|
  {
    bs[last := SetLink(bs[last], b)]
  }

  function Headed(bs: seq<Cell>, b: nat, head: nat): (r: seq<Cell>)
    requires b < |bs|
  {
    bs[b := bs[b].(head := head)]
  }

  /** The in-place updates of `gen_and`. */
  function AndUpdates(bs: seq<Cell>, b0: nat, b1: nat, ts: seq<nat>, last: nat): (r: seq<Cell>)
    requires b0 < |bs| && b1 < |bs| && last < |bs|
  {
    var s := Swapped(Joined(Swapped(Swapped(Patched(bs, ts, b0 + 1), b0), b1), last, b0), b1);
    Headed(s, b1, s[b0].head)
  }

  predicate SameOutside(bs: seq<Cell>, bs': seq<Cell>, lo: nat, hi: nat) {
    |bs'| == |bs| && forall i :: 0 <= i < |bs| && !(lo <= i < hi) ==> bs'[i] == bs[i]
  }

  /** On lists, the updates of `gen_and` do what `Anded` says. */
  lemma AndSteps(bs: seq<Cell>, bs': seq<Cell>, b0: nat, b1: nat, lo: nat, ts: seq<nat>, last: nat)
    requires lo <= b0 < last <= b1 < |bs| && InRange(ts, lo, b0 + 1) && bs[b0].head == lo
    requires bs' == AndUpdates(bs, b0, b1, ts, last)
    ensures Anded(bs, bs', lo, b0 + 1, b1 + 1, ts, last)
  {
    forall i | 0 <= i < |bs| ensures bs'[i] == AndCell(bs[i], i, b0, b1, b0 + 1, i in ts, last, lo) {
      assert i == b0 ==> i == ts[0];
      assert i > b0 ==> i !in ts;
    }
  }

  lemma AndFrame(bs: seq<Cell>, bs': seq<Cell>, lo: nat, mid: nat, hi: nat, ts: seq<nat>, last: nat)
    requires lo < mid <= last < hi && InRange(ts, lo, mid) && Anded(bs, bs', lo, mid, hi, ts, last)
    ensures SameOutside(bs, bs', lo, hi)
  {
    assert forall i :: 0 <= i < |bs| && !(lo <= i < mid) ==> i !in ts;
  }

  lemma NegatedShape(l: Expr, r: Expr, lo: nat)
    ensures Span(Not(Conj(Not(l), Not(r)))) == Span(Disj(l, r)) == Span(l) + Span(r)
    ensures TrueList(Disj(l, r), lo) == TrueList(Not(Conj(Not(l), Not(r))), lo)
    ensures FalseList(Disj(l, r), lo) == FalseList(Not(Conj(Not(l), Not(r))), lo)
  {
    var n, m := Not(l), Not(r);
    assert Span(n) == Span(l) && Span(m) == Span(r);
    ConjShape(n, m, lo);
    assert TrueList(m, lo + Span(n)) == FalseList(r, lo + Span(l));
    assert FalseList(m, lo + Span(n)) == TrueList(r, lo + Span(l)) && FalseList(n, lo) == TrueList(l, lo);
  }

  lemma NegatedConj(l: Expr, r: Expr, d: Expr, lo: nat, i: nat)
    requires d == Not(Conj(Not(l), Not(r))) && Span(d) == Span(l) + Span(r)
    requires lo <= i < lo + Span(l) + Span(r)
    ensures TestAt(Disj(l, r), lo, i) == TestAt(d, lo, i)
    ensures ExitsAt(Disj(l, r), lo, i, IfTrue, IfFalse) == ExitsAt(d, lo, i, IfTrue, IfFalse)
  {
    var n, m := Not(l), Not(r);
    assert Span(n) == Span(l) && Span(m) == Span(r);
    assert ExitsAt(d, lo, i, IfTrue, IfFalse) == ExitsAt(Conj(n, m), lo, i, IfFalse, IfTrue);
    assert TestAt(d, lo, i) == TestAt(Conj(n, m), lo, i);
    if i < lo + Span(l) {
      assert ExitsAt(n, lo, i, To(lo + Span(n)), IfTrue) == ExitsAt(l, lo, i, IfTrue, To(lo + Span(l)));
    } else {
      assert ExitsAt(m, lo + Span(n), i, IfFalse, IfTrue) == ExitsAt(r, lo + Span(l), i, IfTrue, IfFalse);
    }
  }

  /** The in-place updates of `gen_or`. */
  function OrUpdates(bs: seq<Cell>, b0: nat, b1: nat, fs: seq<nat>, last: nat): (r: seq<Cell>)
    requires b0 < |bs| && b1 < |bs| && last < |bs|
  {
    var s := Joined(Swapped(Patched(Swapped(bs, b0), fs, b0 + 1), b0), last, b0);
    Headed(s, b1, s[b0].head)
  }

  lemma OrCells(bs: seq<Cell>, lo: nat, b0: nat, b1: nat, fs: seq<nat>, last: nat)
    requires lo <= b0 < last <= b1 < |bs| && InRange(fs, lo, b0 + 1) && bs[b0].head == lo
    ensures Anded(Swapped(Swapped(bs, b0), b1), Swapped(OrUpdates(bs, b0, b1, fs, last), b1), lo, b0 + 1, b1 + 1,
                  fs, last)
  {
    var before := Swapped(Swapped(bs, b0), b1);
    var after := Swapped(OrUpdates(bs, b0, b1, fs, last), b1);
    forall i | 0 <= i < |bs| ensures after[i] == AndCell(before[i], i, b0, b1, b0 + 1, i in fs, last, lo) {
      assert i == b0 ==> i == fs[0];
      assert i > b0 ==> i !in fs;
    }
  }

  lemma OrFrame(bs: seq<Cell>, bs': seq<Cell>, lo: nat, b0: nat, b1: nat, fs: seq<nat>, last: nat)
    requires lo <= b0 < last <= b1 < |bs| == |bs'| && InRange(fs, lo, b0 + 1)
    requires Anded(Swapped(Swapped(bs, b0), b1), Swapped(bs', b1), lo, b0 + 1, b1 + 1, fs, last)
    ensures SameOutside(bs, bs', lo, b1 + 1)
  {
    AndFrame(Swapped(Swapped(bs, b0), b1), Swapped(bs', b1), lo, b0 + 1, b1 + 1, fs, last);
    forall i | 0 <= i < |bs| && !(lo <= i <= b1) ensures bs'[i] == bs[i] {
      assert Swapped(bs', b1)[i] == Swapped(Swapped(bs, b0), b1)[i];
    }
  }

  lemma OrSteps(bs: seq<Cell>, lo: nat, b0: nat, b1: nat, fs: seq<nat>, last: nat)
    requires lo <= b0 < last <= b1 < |bs| && InRange(fs, lo, b0 + 1) && bs[b0].head == lo
    ensures var bs' := OrUpdates(bs, b0, b1, fs, last);
            && Anded(Swapped(Swapped(bs, b0), b1), Swapped(bs', b1), lo, b0 + 1, b1 + 1, fs, last)
            && SameOutside(bs, bs', lo, b1 + 1)
  {
    OrCells(bs, lo, b0, b1, fs, last);
    OrFrame(bs, OrUpdates(bs, b0, b1, fs, last), lo, b0, b1, fs, last);
  }

  lemma SwapLeft(bs: seq<Cell>, bs': seq<Cell>, l: Expr, n: Expr, lo: nat, b0: nat, b1: nat)
    requires Fragment(bs, l, lo) && n == Not(l) && b0 == lo + Span(l) - 1 && b0 < b1 < |bs|
    requires bs' == Swapped(Swapped(bs, b0), b1)
    ensures Fragment(bs', n, lo)
  {
    NotShape(l, lo);
    NotFragment(bs, Swapped(bs, b0), l, lo, b0);
    FragmentFrame(Swapped(bs, b0), bs', n, lo, b0 + 1);
  }

  lemma SwapRight(bs: seq<Cell>, bs': seq<Cell>, r: Expr, m: Expr, mid: nat, b0: nat, b1: nat)
    requires Fragment(bs, r, mid) && m == Not(r) && b0 < mid && b1 == mid + Span(r) - 1
    requires bs' == Swapped(Swapped(bs, b0), b1)
    ensures Fragment(bs', m, mid)
  {
    FragmentFrame(bs, Swapped(bs, b0), r, mid, b1 + 1);
    NotFragment(Swapped(bs, b0), bs', r, mid, b1);
  }

  lemma OrStillThreaded(bs: seq<Cell>, lo: nat, mid: nat, hi: nat, fs: seq<nat>, ts: seq<nat>)
    requires lo < mid < hi <= |bs| && InRange(fs, lo, mid) && InRange(ts, mid, hi) && Threaded(bs, ts)
    ensures Threaded(Swapped(Patched(Swapped(bs, mid - 1), fs, mid), mid - 1), ts)
  {
    assert forall i :: mid <= i < |bs| ==> i !in fs;
    ThreadsFrame(bs, Swapped(Patched(Swapped(bs, mid - 1), fs, mid), mid - 1), mid, hi, ts);
  }

  /** `gen_or` makes the same updates as `gen_and` between negations. */
  lemma DisjFragment(bs: seq<Cell>, l: Expr, r: Expr, lo: nat)
    requires Fragment(bs, Not(Conj(Not(l), Not(r))), lo)
    ensures Fragment(bs, Disj(l, r), lo)
  {
    var d := Not(Conj(Not(l), Not(r)));
    NegatedShape(l, r, lo);
    forall i | lo <= i < lo + Span(l) + Span(r)
      ensures CellFor(bs[i], Disj(l, r), lo, i)
    {
      assert CellFor(bs[i], d, lo, i);
      NegatedConj(l, r, d, lo, i);
    }
  }

  /** While the first fragment's true list is patched, the second's false list stays threaded. */
  lemma StillThreaded(bs: seq<Cell>, mid: nat, hi: nat, ts: seq<nat>, fs: seq<nat>)
    requires 0 < mid < hi <= |bs| && (forall k :: 0 <= k < |ts| ==> ts[k] < mid) && InRange(fs, mid, hi)
    requires Threaded(Swapped(bs, hi - 1), fs)
    ensures Threaded(Swapped(Swapped(Patched(bs, ts, mid), mid - 1), hi - 1), fs)
  {
    var bs' := Swapped(Swapped(Patched(bs, ts, mid), mid - 1), hi - 1);
    forall k | 0 <= k < |fs| ensures Link(bs'[fs[k]]) == Entry(fs, k + 1) {
      assert fs[k] !in ts;
      assert Link(Swapped(bs, hi - 1)[fs[k]]) == Entry(fs, k + 1);
    }
  }

  lemma NotsConjoined(bs: seq<Cell>, after: seq<Cell>, l: Expr, r: Expr, n: Expr, m: Expr, lo: nat, mid: nat, hi: nat,
                      fs: seq<nat>, ts: seq<nat>)
    requires n == Not(l) && m == Not(r) && mid == lo + Span(l) && hi == mid + Span(r)
    requires fs == FalseList(l, lo) && ts == TrueList(r, mid) && |ts| > 0
    requires Fragment(bs, n, lo) && Fragment(bs, m, mid) && Anded(bs, after, lo, mid, hi, fs, Last(ts))
    ensures Fragment(after, Conj(n, m), lo)
  {
    NotShape(l, lo);
    NotShape(r, mid);
    ConjFragment(bs, after, n, m, lo, mid, hi, fs, ts);
  }

  /** The swapped blocks hold the negated operands. */
  lemma SwapBoth(bs: seq<Cell>, bs': seq<Cell>, l: Expr, r: Expr, n: Expr, m: Expr, lo: nat, mid: nat, hi: nat)
    requires n == Not(l) && m == Not(r) && mid == lo + Span(l) && hi == mid + Span(r)
    requires Fragment(bs, l, lo) && Fragment(bs, r, mid) && bs' == Swapped(Swapped(bs, mid - 1), hi - 1)
    ensures Fragment(bs', n, lo) && Fragment(bs', m, mid)
  {
    SwapLeft(bs, bs', l, n, lo, mid - 1, hi - 1);
    SwapRight(bs, bs', r, m, mid, mid - 1, hi - 1);
  }

  lemma ConjAsOr(bs: seq<Cell>, bs': seq<Cell>, l: Expr, r: Expr, lo: nat, b: nat)
    requires Fragment(bs, Conj(Not(l), Not(r)), lo) && b == lo + Span(l) + Span(r) - 1 < |bs| && bs' == Swapped(bs, b)
    ensures Fragment(bs', Disj(l, r), lo)
  {
    NotShape(l, lo);
    NotShape(r, lo);
    ConjShape(Not(l), Not(r), lo);
    NotFragment(bs, bs', Conj(Not(l), Not(r)), lo, b);
    DisjFragment(bs', l, r, lo);
  }

  lemma NotsDisjoined(bs: seq<Cell>, after: seq<Cell>, bs': seq<Cell>, l: Expr, r: Expr, n: Expr, m: Expr,
                      lo: nat, mid: nat, hi: nat, fs: seq<nat>, ts: seq<nat>)
    requires n == Not(l) && m == Not(r) && mid == lo + Span(l) && hi == mid + Span(r)
    requires fs == FalseList(l, lo) && ts == TrueList(r, mid) && |ts| > 0 && hi <= |bs|
    requires Fragment(bs, n, lo) && Fragment(bs, m, mid) && Anded(bs, after, lo, mid, hi, fs, Last(ts))
    requires bs' == Swapped(after, hi - 1)
    ensures Fragment(bs', Disj(l, r), lo)
  {
    NotsConjoined(bs, after, l, r, n, m, lo, mid, hi, fs, ts);
    ConjAsOr(after, bs', l, r, lo, hi - 1);
  }

  /** `gen_or`: patching the false list and merging the true lists disjoins the expressions. */
  lemma OrFragment(bs: seq<Cell>, bs': seq<Cell>, l: Expr, r: Expr, lo: nat, mid: nat, hi: nat,
                   fs: seq<nat>, ts: seq<nat>)
    requires mid == lo + Span(l) && hi == mid + Span(r) && fs == FalseList(l, lo) && ts == TrueList(r, mid) && |ts| > 0
    requires Fragment(bs, l, lo) && Fragment(bs, r, mid) && hi <= |bs'| == |bs|
    requires Anded(Swapped(Swapped(bs, mid - 1), hi - 1), Swapped(bs', hi - 1), lo, mid, hi, fs, Last(ts))
    ensures Fragment(bs', Disj(l, r), lo)
  {
    var before, after := Swapped(Swapped(bs, mid - 1), hi - 1), Swapped(bs', hi - 1);
    SwapBoth(bs, before, l, r, Not(l), Not(r), lo, mid, hi);
    assert bs' == Swapped(after, hi - 1);
    NotsDisjoined(before, after, bs', l, r, Not(l), Not(r), lo, mid, hi, fs, ts);
  }

  /** The graph a fully patched arena denotes. */
  function ToGraph(bs: seq<Cell>): (g: Graph)
    ensures |g| == |bs|
  {
    seq(|bs|, i requires 0 <= i < |bs| =>
      Block(bs[i].stmts, bs[i].s, if bs[i].jt < 0 then 0 else bs[i].jt, if bs[i].jf < 0 then 0 else bs[i].jf))
  }

  /** A finished filter: the code of `e`, every exit resolved, then the accepting and the rejecting
      return. */
  predicate FinishedGraph(g: Graph, e: Expr, lo: nat, yes: nat, snaplen: Word) {
    && yes == lo + Span(e) && |g| == yes + 2
    && Holds(g, e, lo, yes, yes + 1)
    && g[yes].stmts == [] && g[yes].s == RetK(snaplen)
    && g[yes + 1].stmts == [] && g[yes + 1].s == RetK(0)
  }

  predicate Finished(bs: seq<Cell>, e: Expr, lo: nat, snaplen: Word) {
    FinishedGraph(ToGraph(bs), e, lo, lo + Span(e), snaplen)
  }

  function FinalCell(c: Cell, newest: bool, onTrue: bool, onFalse: bool, yes: nat, no: nat): Cell {
    var c1 := if onTrue then SetLink(c, yes) else c;
    var c2 := if newest then Flip(c1) else c1;
    if onFalse then SetLink(c2, no) else c2
  }

  lemma FinalCellOk(c: Cell, e: Expr, lo: nat, i: nat, yes: nat, no: nat)
    requires lo <= i < lo + Span(e) && CellFor(c, e, lo, i)
    ensures var c' := FinalCell(c, i == lo + Span(e) - 1, i in TrueList(e, lo), i in FalseList(e, lo), yes, no);
            && c'.stmts == TestAt(e, lo, i).stmts && c'.s == TestAt(e, lo, i).s && c'.jt >= 0 && c'.jf >= 0
            && ExitsAt(e, lo, i, To(yes), To(no)) == Exits(To(c'.jt), To(c'.jf))
  {
    ListMembers(e, lo, i);
    RetargetExits(e, lo, i, IfTrue, IfFalse, To(yes), To(no));
    assert ExitsAt(e, lo, i, To(yes), To(no)) == RetargetBoth(ExitsAt(e, lo, i, IfTrue, IfFalse), To(yes), To(no));
  }

  /** Patching both lists of a fragment finishes it. */
  lemma FinishFragment(bs: seq<Cell>, bs': seq<Cell>, e: Expr, lo: nat, snaplen: Word)
    requires Cells(bs, e, lo) && |bs| == lo + Span(e) && |bs'| == |bs| + 2
    requires forall i :: lo <= i < |bs| ==>
               bs'[i] == FinalCell(bs[i], i == |bs| - 1, i in TrueList(e, lo), i in FalseList(e, lo), |bs|, |bs| + 1)
    requires bs'[|bs|].stmts == [] && bs'[|bs|].s == RetK(snaplen)
    requires bs'[|bs| + 1].stmts == [] && bs'[|bs| + 1].s == RetK(0)
    ensures Finished(bs', e, lo, snaplen)
  {
    var g := ToGraph(bs');
    forall i | lo <= i < |bs|
      ensures Places(g[i], TestAt(e, lo, i), ExitsAt(e, lo, i, To(|bs|), To(|bs| + 1)))
    {
      FinalCellOk(bs[i], e, lo, i, |bs|, |bs| + 1);
    }
  }

  /** Patching the true list leaves the false list threaded. */
  lemma FalseStillThreaded(bs: seq<Cell>, bs': seq<Cell>, lo: nat, ts: seq<nat>, fs: seq<nat>)
    requires Threads(bs, lo, |bs|, ts, fs) && MeetAtHead(ts, fs, lo, |bs|) && |bs'| >= |bs|
    requires forall i :: lo <= i < |bs| ==> bs'[i] == FinalCell(bs[i], i == |bs| - 1, i in ts, false, |bs|, 0)
    ensures Threaded(bs', fs)
  {
    var b := |bs| - 1;
    forall k | 0 <= k < |fs| ensures Link(bs'[fs[k]]) == Entry(fs, k + 1) {
      assert Link(Swapped(bs, b)[fs[k]]) == Entry(fs, k + 1);
      assert fs[k] in fs;
    }
  }

  /** Block indices count as levels, since all jumps are forward. */
  function ByIndex(n: nat, lo: nat): (lv: seq<int>)
    ensures |lv| == n
    ensures forall i :: 0 <= i < n ==> lv[i] == if i < lo then -1 else n - i
  {
    seq(n, i => if i < lo then -1 else n - i)
  }

  lemma {:induction false} TestsProper(e: Expr, lo: nat, i: nat)
    requires Proper(e) && lo <= i < lo + Span(e)
    ensures SelfContained(TestAt(e, lo, i))
  {
    match e
    case Leaf(_) =>
    case Not(e0) => TestsProper(e0, lo, i);
    case Conj(l, r) =>
      if i < lo + Span(l) { TestsProper(l, lo, i); } else { TestsProper(r, lo + Span(l), i); }
    case Disj(l, r) =>
      if i < lo + Span(l) { TestsProper(l, lo, i); } else { TestsProper(r, lo + Span(l), i); }
  }

  lemma FinishedShape(bs: seq<Cell>, e: Expr, lo: nat, snaplen: Word)
    requires Finished(bs, e, lo, snaplen) && Proper(e)
    ensures GraphClosed(ToGraph(bs), ByIndex(|bs|, lo), {})
  {
    var g, lv := ToGraph(bs), ByIndex(|bs|, lo);
    forall i | lo <= i < |bs|
      ensures BlockClosed(g[i], {}) && (g[i].s.Jmp? ==> i < g[i].jt < |bs| && i < g[i].jf < |bs|)
    {
      FinishedBlock(bs, e, lo, snaplen, i);
    }
  }

  lemma FinishedBlock(bs: seq<Cell>, e: Expr, lo: nat, snaplen: Word, i: nat)
    requires Finished(bs, e, lo, snaplen) && Proper(e) && lo <= i < |bs|
    ensures var b := ToGraph(bs)[i];
            BlockClosed(b, {}) && !b.s.RetA? && (b.s.Jmp? ==> i < b.jt < |bs| && i < b.jf < |bs|)
  {
    var yes := lo + Span(e);
    if i < yes {
      TestsProper(e, lo, i);
      CodeForward(e, lo, i, To(yes), To(yes + 1));
    }
  }

  /** The finished filter accepts, rejects or aborts exactly as the expression says. */
  lemma FilterCorrect(bs: seq<Cell>, e: Expr, lo: nat, snaplen: Word, st: State, p: Packet)
    requires Finished(bs, e, lo, snaplen) && Proper(e)
    ensures Leveled(ToGraph(bs), ByIndex(|bs|, lo))
    ensures Run(ToGraph(bs), ByIndex(|bs|, lo), lo, st, p) == Choose(Eval(e, p), Return(snaplen), Return(0))
  {
    var g, lv := ToGraph(bs), ByIndex(|bs|, lo);
    FinishedShape(bs, e, lo, snaplen);
    RunIsDecide(g, lv, {}, lo, st, ZeroState, p);
    FilterDecides(g, lv, e, lo, lo + Span(e), snaplen, p);
  }

  lemma FilterDecides(g: Graph, lv: seq<int>, e: Expr, lo: nat, yes: nat, snaplen: Word, p: Packet)
    requires Leveled(g, lv) && Proper(e) && AllLeveled(lv, lo, |g|) && FinishedGraph(g, e, lo, yes, snaplen)
    ensures Decide(g, lv, lo, ZeroState, p) == Choose(Eval(e, p), Return(snaplen), Return(0))
  {
    ReturnDecides(g, lv, yes, snaplen, p);
    ReturnDecides(g, lv, yes + 1, 0, p);
    CodeCorrect(g, lv, e, lo, yes, yes + 1, p);
  }

  lemma ReturnDecides(g: Graph, lv: seq<int>, i: nat, k: Word, p: Packet)
    requires Leveled(g, lv) && i < |g| && lv[i] >= 0 && g[i].stmts == [] && g[i].s == RetK(k)
    ensures Decide(g, lv, i, ZeroState, p) == Return(k)
  {
    assert StepOf(g[i], ZeroState, p) == Stop(Return(k));
  }

  /** What `gen_and` finds: the lists to patch and to merge, and the heads. */
  predicate Joinable(bs: seq<Cell>, b0: nat, b1: nat, lo: nat, ts: seq<nat>, fs: seq<nat>) {
    && lo <= b0 < b1 < |bs| && InRange(ts, lo, b0 + 1) && InRange(fs, b0 + 1, b1 + 1)
    && Threaded(bs, ts) && Threaded(Swapped(bs, b1), fs)
    && bs[b0].head == lo && bs[b1].head == b0 + 1
  }

  lemma JoinableMerges(bs: seq<Cell>, b0: nat, b1: nat, lo: nat, ts: seq<nat>, fs: seq<nat>)
    requires Joinable(bs, b0, b1, lo, ts, fs)
    ensures b0 == Entry(ts, 0) && |fs| > 0 && fs[0] == b1 && b0 < Last(fs) <= b1
    ensures Threaded(Swapped(Swapped(Patched(bs, ts, b0 + 1), b0), b1), fs)
  {
    StillThreaded(bs, b0 + 1, b1 + 1, ts, fs);
  }

  lemma AndReady(bs: seq<Cell>, l: Expr, r: Expr, lo: nat, b0: nat, b1: nat, ts: seq<nat>, fs: seq<nat>)
    requires b0 == lo + Span(l) - 1 && b1 == b0 + Span(r) && ts == TrueList(l, lo) && fs == FalseList(r, b0 + 1)
    requires Fragment(bs, l, lo) && Fragment(bs, r, b0 + 1)
    ensures Joinable(bs, b0, b1, lo, ts, fs) && |fs| > 0
  {
    ListShape(l, lo);
    ListShape(r, b0 + 1);
  }

  lemma AndKeepsRest(bs: seq<Cell>, bs': seq<Cell>, b0: nat, b1: nat, lo: nat, ts: seq<nat>, fs: seq<nat>)
    requires Joinable(bs, b0, b1, lo, ts, fs) && Anded(bs, bs', lo, b0 + 1, b1 + 1, ts, Last(fs))
    ensures SameOutside(bs, bs', lo, b1 + 1)
  {
    AndFrame(bs, bs', lo, b0 + 1, b1 + 1, ts, Last(fs));
  }

  lemma AndDone(bs: seq<Cell>, bs': seq<Cell>, l: Expr, r: Expr, lo: nat, b0: nat, b1: nat, ts: seq<nat>, fs: seq<nat>)
    requires b0 == lo + Span(l) - 1 && b1 == b0 + Span(r) && ts == TrueList(l, lo) && fs == FalseList(r, b0 + 1)
    requires Fragment(bs, l, lo) && Fragment(bs, r, b0 + 1) && Joinable(bs, b0, b1, lo, ts, fs)
    requires Anded(bs, bs', lo, b0 + 1, b1 + 1, ts, Last(fs))
    ensures Fragment(bs', Conj(l, r), lo) && SameOutside(bs, bs', lo, b1 + 1)
  {
    ConjFragment(bs, bs', l, r, lo, b0 + 1, b1 + 1, ts, fs);
    AndKeepsRest(bs, bs', b0, b1, lo, ts, fs);
  }

  predicate Disjoinable(bs: seq<Cell>, b0: nat, b1: nat, lo: nat, fs: seq<nat>, ts: seq<nat>) {
    && lo <= b0 < b1 < |bs| && InRange(fs, lo, b0 + 1) && InRange(ts, b0 + 1, b1 + 1)
    && Threaded(Swapped(bs, b0), fs) && Threaded(bs, ts)
    && bs[b0].head == lo && bs[b1].head == b0 + 1
  }

  lemma DisjoinableMerges(bs: seq<Cell>, b0: nat, b1: nat, lo: nat, fs: seq<nat>, ts: seq<nat>)
    requires Disjoinable(bs, b0, b1, lo, fs, ts)
    ensures b0 == Entry(fs, 0) && |ts| > 0 && ts[0] == b1 && Last(ts) < |bs| && Swapped(bs, b0)[b1].head == b0 + 1
    ensures Threaded(Swapped(Patched(Swapped(bs, b0), fs, b0 + 1), b0), ts)
  {
    OrStillThreaded(bs, lo, b0 + 1, b1 + 1, fs, ts);
  }

  lemma OrReady(bs: seq<Cell>, l: Expr, r: Expr, lo: nat, b0: nat, b1: nat, fs: seq<nat>, ts: seq<nat>)
    requires b0 == lo + Span(l) - 1 && b1 == b0 + Span(r) && fs == FalseList(l, lo) && ts == TrueList(r, b0 + 1)
    requires Fragment(bs, l, lo) && Fragment(bs, r, b0 + 1)
    ensures Disjoinable(bs, b0, b1, lo, fs, ts) && |ts| > 0
  {
    ListShape(l, lo);
    ListShape(r, b0 + 1);
  }

  /** On lists, the updates of `gen_or` do what `Anded` says of the swapped blocks. */
  lemma DisjoinUpdates(bs: seq<Cell>, bs': seq<Cell>, b0: nat, b1: nat, lo: nat, fs: seq<nat>, ts: seq<nat>)
    requires Disjoinable(bs, b0, b1, lo, fs, ts) && Last(ts) < |bs| && bs' == OrUpdates(bs, b0, b1, fs, Last(ts))
    ensures |bs'| == |bs| && SameOutside(bs, bs', lo, b1 + 1)
    ensures Anded(Swapped(Swapped(bs, b0), b1), Swapped(bs', b1), lo, b0 + 1, b1 + 1, fs, Last(ts))
  {
    OrSteps(bs, lo, b0, b1, fs, Last(ts));
  }

  class Generator {
    var blocks: seq<Cell>

    constructor ()
      ensures blocks == []
    {
      blocks := [];
    }

    method NewBlock(stmts: seq<Stmt>, s: Branch) returns (b: nat)
      modifies this
      ensures b == |old(blocks)|
      ensures blocks == old(blocks) + [Cell(stmts, s, NULL, NULL, false, b)]
    {
      b := |blocks|;
      blocks := blocks + [Cell(stmts, s, NULL, NULL, false, b)];
    }

    /** Resolve every exit on the list threaded from `list`. */
    method Backpatch(list: int, target: nat, ghost ids: seq<nat>)
      requires list == Entry(ids, 0) && Threaded(blocks, ids)
      modifies this
      ensures blocks == Patched(old(blocks), ids, target)
    {
      var cur := list;
      ghost var k := 0;
      while cur != NULL
        invariant 0 <= k <= |ids| && cur == Entry(ids, k)
        invariant |blocks| == |old(blocks)|
        invariant forall i :: 0 <= i < |blocks| ==>
                    blocks[i] == if i in ids[..k] then SetLink(old(blocks)[i], target) else old(blocks)[i]
        decreases |ids| - k
      {
        assert ids[k] !in ids[..k] && Link(old(blocks)[ids[k]]) == Entry(ids, k + 1);
        var next: int;
        if !blocks[cur].sense {
          next := blocks[cur].jt;
          blocks := blocks[cur := blocks[cur].(jt := target)];
        } else {
          next := blocks[cur].jf;
          blocks := blocks[cur := blocks[cur].(jf := target)];
        }
        assert ids[..k + 1] == ids[..k] + [ids[k]];
        cur, k := next, k + 1;
      }
      assert ids[..k] == ids;
    }

    /** Append the list threaded from `b1` to the one threaded from `b0`. */
    method Merge(b0: nat, b1: nat, ghost ids: seq<nat>)
      requires |ids| > 0 && b0 == ids[0] && Threaded(blocks, ids)
      modifies this
      ensures blocks == Joined(old(blocks), ids[|ids| - 1], b1)
    {
      var p := b0;
      ghost var k := 0;
      while Link(blocks[p]) != NULL
        invariant 0 <= k < |ids| && p == ids[k] && blocks == old(blocks)
        decreases |ids| - k
      {
        p, k := Link(blocks[p]), k + 1;
      }
      blocks := blocks[p := SetLink(blocks[p], b1)];
    }

    method GenNot(b: nat, ghost e: Expr, ghost lo: nat)
      requires Fragment(blocks, e, lo) && b == lo + Span(e) - 1
      modifies this
      ensures blocks == Swapped(old(blocks), b)
      ensures Fragment(blocks, Not(e), lo)
    {
      blocks := Swapped(blocks, b);
      NotFragment(old(blocks), blocks, e, lo, b);
    }

    method GenAnd(b0: nat, b1: nat, ghost l: Expr, ghost r: Expr, ghost lo: nat)
      requires Fragment(blocks, l, lo) && b0 == lo + Span(l) - 1
      requires Fragment(blocks, r, lo + Span(l)) && b1 == lo + Span(l) + Span(r) - 1
      modifies this
      ensures Fragment(blocks, Conj(l, r), lo)
      ensures SameOutside(old(blocks), blocks, lo, b1 + 1)
    {
      ghost var ts, fs := TrueList(l, lo), FalseList(r, b0 + 1);
      AndReady(blocks, l, r, lo, b0, b1, ts, fs);
      Conjoin(b0, b1, lo, ts, fs);
      AndDone(old(blocks), blocks, l, r, lo, b0, b1, ts, fs);
    }

    /** The updates of `gen_and`, on lists. */
    method Conjoin(b0: nat, b1: nat, ghost lo: nat, ghost ts: seq<nat>, ghost fs: seq<nat>)
      requires Joinable(blocks, b0, b1, lo, ts, fs)
      modifies this
      ensures Anded(old(blocks), blocks, lo, b0 + 1, b1 + 1, ts, Last(fs))
    {
      JoinableMerges(blocks, b0, b1, lo, ts, fs);
      Backpatch(b0, blocks[b1].head, ts);
      blocks := Swapped(blocks, b0);
      blocks := Swapped(blocks, b1);
      Merge(b1, b0, fs);
      blocks := Swapped(blocks, b1);
      blocks := Headed(blocks, b1, blocks[b0].head);
      AndSteps(old(blocks), blocks, b0, b1, lo, ts, Last(fs));
    }

    method GenOr(b0: nat, b1: nat, ghost l: Expr, ghost r: Expr, ghost lo: nat)
      requires Fragment(blocks, l, lo) && b0 == lo + Span(l) - 1
      requires Fragment(blocks, r, lo + Span(l)) && b1 == lo + Span(l) + Span(r) - 1
      modifies this
      ensures Fragment(blocks, Disj(l, r), lo)
      ensures SameOutside(old(blocks), blocks, lo, b1 + 1)
    {
      ghost var fs, ts := FalseList(l, lo), TrueList(r, b0 + 1);
      OrReady(blocks, l, r, lo, b0, b1, fs, ts);
      Disjoin(b0, b1, lo, fs, ts);
      OrFragment(old(blocks), blocks, l, r, lo, b0 + 1, b1 + 1, fs, ts);
    }

    /** The updates of `gen_or`, on lists. */
    method Disjoin(b0: nat, b1: nat, ghost lo: nat, ghost fs: seq<nat>, ghost ts: seq<nat>)
      requires Disjoinable(blocks, b0, b1, lo, fs, ts)
      modifies this
      ensures |blocks| == |old(blocks)| && SameOutside(old(blocks), blocks, lo, b1 + 1)
      ensures Anded(Swapped(Swapped(old(blocks), b0), b1), Swapped(blocks, b1), lo, b0 + 1, b1 + 1, fs, Last(ts))
    {
      DisjoinableMerges(blocks, b0, b1, lo, fs, ts);
      blocks := Swapped(blocks, b0);
      Backpatch(b0, blocks[b1].head, fs);
      blocks := Swapped(blocks, b0);
      Merge(b1, b0, ts);
      blocks := Headed(blocks, b1, blocks[b0].head);
      DisjoinUpdates(old(blocks), blocks, b0, b1, lo, fs, ts);
    }

    /** The parser's actions for an expression, operands left to right. */
    method Compile(e: Expr) returns (b: nat)
      modifies this
      ensures |blocks| == |old(blocks)| + Span(e) && b == |blocks| - 1
      ensures SameInside(old(blocks), blocks, 0, |old(blocks)|)
      ensures Fragment(blocks, e, |old(blocks)|)
      decreases e, 1
    {
      ghost var lo := |blocks|;
      match e
      case Leaf(t) =>
        b := NewBlock(t.stmts, t.s);
      case Not(e0) =>
        b := Compile(e0);
        GenNot(b, e0, lo);
      case Conj(l, r) =>
        var b0, b1 := CompileBoth(e, l, r);
        GenAnd(b0, b1, l, r, lo);
        b := b1;
      case Disj(l, r) =>
        var b0, b1 := CompileBoth(e, l, r);
        GenOr(b0, b1, l, r, lo);
        b := b1;
    }

    /** Both operands of `e`, one after the other. */
    method CompileBoth(ghost e: Expr, l: Expr, r: Expr) returns (b0: nat, b1: nat)
      requires e == Conj(l, r) || e == Disj(l, r)
      modifies this
      ensures |blocks| == |old(blocks)| + Span(l) + Span(r)
      ensures b0 == |old(blocks)| + Span(l) - 1 && b1 == |blocks| - 1
      ensures SameInside(old(blocks), blocks, 0, |old(blocks)|)
      ensures Fragment(blocks, l, |old(blocks)|) && Fragment(blocks, r, |old(blocks)| + Span(l))
      decreases e, 0
    {
      ghost var lo := |blocks|;
      b0 := Compile(l);
      ghost var bs := blocks;
      b1 := Compile(r);
      FragmentFrame(bs, blocks, l, lo, b0 + 1);
    }

    /** Patch the true list to an accepting return and the false list to a rejecting one. */
    method FinishParse(p: nat, snaplen: Word, ghost e: Expr, ghost lo: nat) returns (root: nat)
      requires Fragment(blocks, e, lo) && |blocks| == lo + Span(e) && p == |blocks| - 1
      modifies this
      ensures root == lo && Finished(blocks, e, lo, snaplen)
    {
      ghost var bs := blocks;
      ListsMeet(e, lo);
      root := PatchReturns(p, snaplen, lo, TrueList(e, lo), FalseList(e, lo));
      FinishFragment(bs, blocks, e, lo, snaplen);
    }

    /** The same, on lists. */
    method PatchReturns(p: nat, snaplen: Word, ghost lo: nat, ghost ts: seq<nat>, ghost fs: seq<nat>)
      returns (root: nat)
      requires Threads(blocks, lo, |blocks|, ts, fs) && MeetAtHead(ts, fs, lo, |blocks|) && p == |blocks| - 1
      modifies this
      ensures var n := |old(blocks)|;
              && root == lo && |blocks| == n + 2
              && blocks[n].stmts == [] && blocks[n].s == RetK(snaplen)
              && blocks[n + 1].stmts == [] && blocks[n + 1].s == RetK(0)
              && forall i :: lo <= i < n ==>
                   blocks[i] == FinalCell(old(blocks)[i], i == n - 1, i in ts, i in fs, n, n + 1)
    {
      ghost var bs := blocks;
      PatchTrue(p, snaplen, lo, ts, fs);
      var no := NewBlock([], RetK(0));
      FalseStillThreaded(bs, blocks, lo, ts, fs);
      Backpatch(p, no, fs);
      root := blocks[p].head;
    }

    method PatchTrue(p: nat, snaplen: Word, ghost lo: nat, ghost ts: seq<nat>, ghost fs: seq<nat>)
      requires Threads(blocks, lo, |blocks|, ts, fs) && MeetAtHead(ts, fs, lo, |blocks|) && p == |blocks| - 1
      modifies this
      ensures var n := |old(blocks)|;
              && |blocks| == n + 1 && blocks[n].stmts == [] && blocks[n].s == RetK(snaplen)
              && forall i :: 0 <= i < n ==> blocks[i] == FinalCell(old(blocks)[i], i == n - 1, i in ts, false, n, 0)
    {
      ghost var bs := blocks;
      var yes := NewBlock([], RetK(snaplen));
      ThreadsFrame(bs, blocks, lo, |bs|, ts);
      Backpatch(p, yes, ts);
      blocks := Swapped(blocks, p);
    }
  }
}
