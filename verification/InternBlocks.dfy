/** `intern_blocks`: blocks that do the same are merged, until no two reachable blocks are equal. */
module InternBlocks {
  import opened Collections
  import opened Machine
  import opened Layout
  import opened Paths
  import opened Levels

  /** `eq_slist`: the same statements, deleted ones aside. */
  method EqSlist(x: seq<Stmt>, y: seq<Stmt>) returns (eq: bool)
    ensures eq <==> Compact(x) == Compact(y)
  {
    var i, j := 0, 0;
    while true
      invariant i <= |x| && j <= |y|
      invariant Compact(x) == Compact(y) <==> Compact(x[i..]) == Compact(y[j..])
      decreases |x| - i + |y| - j
    {
      i := SkipDeleted(x, i);
      j := SkipDeleted(y, j);
      if i == |x| || j == |y| {
        return i == |x| && j == |y|;
      }
      CompactHead(x, i);
      CompactHead(y, j);
      if x[i] != y[j] {
        return false;
      }
      i, j := i + 1, j + 1;
    }
  }

  method SkipDeleted(x: seq<Stmt>, i: nat) returns (j: nat)
    requires i <= |x|
    ensures i <= j <= |x| && Compact(x[i..]) == Compact(x[j..]) && (j < |x| ==> x[j] != Nop)
  {
    j := i;
    while j < |x| && x[j] == Nop
      invariant i <= j <= |x| && Compact(x[i..]) == Compact(x[j..])
    {
      assert x[j..][1..] == x[j + 1..];
      j := j + 1;
    }
  }

  lemma CompactHead(x: seq<Stmt>, i: nat)
    requires i < |x| && x[i] != Nop
    ensures Compact(x[i..]) == [x[i]] + Compact(x[i + 1..]) && Compact(x[i..])[0] == x[i]
    ensures Compact(x[i..])[1..] == Compact(x[i + 1..])
  {
    assert x[i..][1..] == x[i + 1..];
  }

  /** Two blocks that do the same and go to the same places. */
  predicate SameBlock(b0: Block, b1: Block) {
    && b0.s == b1.s && (b0.s.Jmp? ==> b0.jt == b1.jt && b0.jf == b1.jf)
    && Compact(b0.stmts) == Compact(b1.stmts)
  }

  /** `eq_blk` */
  method EqBlk(b0: Block, b1: Block) returns (eq: bool)
    ensures eq == SameBlock(b0, b1)
    ensures eq <==> Compact(b0.stmts) == Compact(b1.stmts) && b0.s == b1.s &&
                    (b0.s.Jmp? ==> b0.jt == b1.jt && b0.jf == b1.jf)
  {
    if b0.s == b1.s && (b0.s.Jmp? ==> b0.jt == b1.jt && b0.jf == b1.jf) {
      eq := EqSlist(b0.stmts, b1.stmts);
    } else {
      eq := false;
    }
  }

  /** Equal blocks give equal verdicts. */
  lemma SameBlockRuns(g: Graph, lv: seq<int>, b0: nat, b1: nat, st: State, p: Packet)
    requires Leveled(g, lv) && b0 < |g| && b1 < |g| && lv[b0] >= 0 && lv[b1] >= 0 && SameBlock(g[b0], g[b1])
    ensures Run(g, lv, b0, st, p) == Run(g, lv, b1, st, p)
  {
    CompactExec(g[b0].stmts, st, p);
    CompactExec(g[b1].stmts, st, p);
  }

  /** Branches stay in range, and levelled blocks have their exact levels. */
  predicate Ranked(g: Graph, lv: seq<int>) {
    && |lv| == |g|
    && (forall b {:trigger g[b]} :: 0 <= b < |g| && g[b].s.Jmp? ==> g[b].jt < |g| && g[b].jf < |g|)
    && forall b: nat {:trigger ExactLevel(g, lv, b)} :: b < |g| && lv[b] >= 0 ==> ExactLevel(g, lv, b)
  }

  lemma RankedIsLeveled(g: Graph, lv: seq<int>)
    requires Ranked(g, lv)
    ensures Leveled(g, lv)
  {
    forall b | 0 <= b < |g| && lv[b] >= 0 && g[b].s.Jmp?
      ensures g[b].jt < |g| && g[b].jf < |g| && 0 <= lv[g[b].jt] < lv[b] && 0 <= lv[g[b].jf] < lv[b]
    {
      assert ExactLevel(g, lv, b);
    }
  }

  lemma SameBlockSameLevel(g: Graph, lv: seq<int>, b0: nat, b1: nat)
    requires Ranked(g, lv) && b0 < |g| && b1 < |g| && lv[b0] >= 0 && lv[b1] >= 0 && SameBlock(g[b0], g[b1])
    ensures lv[b0] == lv[b1]
  {
    assert ExactLevel(g, lv, b0) && ExactLevel(g, lv, b1);
  }

  type Links = seq<Option<nat>>

  /** What `link` holds for block `i` once set: a later equal block that is itself linked to nothing. */
  predicate LinkOk(g: Graph, marks: seq<bool>, links: Links, i: nat)
    requires |marks| == |links| == |g| && i < |g|
  {
    match links[i]
    case None => true
    case Some(m) => i < m < |g| && marks[i] && marks[m] && SameBlock(g[i], g[m]) && links[m] == None
  }

  /** ... and it is set whenever some later marked block is equal. */
  predicate LinkFull(g: Graph, marks: seq<bool>, links: Links, i: nat)
    requires |marks| == |links| == |g| && i < |g|
  {
    marks[i] && (exists j :: i < j < |g| && marks[j] && SameBlock(g[i], g[j])) ==> links[i].Some?
  }

  predicate Linked(g: Graph, marks: seq<bool>, links: Links, from: nat)
    requires |marks| == |links| == |g|
  {
    forall i: nat {:trigger LinkOk(g, marks, links, i)} {:trigger LinkFull(g, marks, links, i)} ::
      i < |g| ==> LinkOk(g, marks, links, i) && (if i < from then links[i] == None else LinkFull(g, marks, links, i))
  }

  /** The double loop that links equal blocks, last first. */
  method LinkBlocks(g: Graph, marks: seq<bool>) returns (links: Links)
    requires |marks| == |g|
    ensures |links| == |g| && Linked(g, marks, links, 0)
  {
    links := seq(|g|, _ => None);
    if |g| == 0 {
      return;
    }
    for i := |g| - 1 downto 0
      invariant |links| == |g| && Linked(g, marks, links, i)
    {
      links := LinkOne(g, marks, links, i);
    }
  }

  /** The first later marked block equal to block `i`. */
  method FindEqual(g: Graph, marks: seq<bool>, i: nat) returns (r: Option<nat>)
    requires |marks| == |g| && i < |g|
    ensures r.Some? ==> i < r.value < |g| && marks[r.value] && SameBlock(g[i], g[r.value])
    ensures var hi := if r.Some? then r.value else |g|; forall k :: i < k < hi && marks[k] ==> !SameBlock(g[i], g[k])
  {
    for j := i + 1 to |g|
      invariant forall k :: i < k < j && marks[k] ==> !SameBlock(g[i], g[k])
    {
      if marks[j] {
        var eq := EqBlk(g[i], g[j]);
        if eq {
          return Some(j);
        }
      }
    }
    return None;
  }

  method LinkOne(g: Graph, marks: seq<bool>, links0: Links, i: nat) returns (links: Links)
    requires |marks| == |links0| == |g| && i < |g| && Linked(g, marks, links0, i + 1)
    ensures |links| == |g| && Linked(g, marks, links, i)
  {
    links := links0;
    assert LinkOk(g, marks, links0, i) && links0[i] == None;
    if marks[i] {
      var j := FindEqual(g, marks, i);
      if j.Some? {
        assert LinkOk(g, marks, links0, j.value);
        links := links[i := if links[j.value].Some? then links[j.value] else j];
      }
    }
    assert LinkFull(g, marks, links, i);
    LinkedStep(g, marks, links0, links, i);
  }

  lemma LinkedStep(g: Graph, marks: seq<bool>, links0: Links, links: Links, i: nat)
    requires |marks| == |links0| == |links| == |g| && i < |g| && Linked(g, marks, links0, i + 1)
    requires links == links0[i := links[i]] && LinkFull(g, marks, links, i)
    requires match links[i]
             case None => true
             case Some(m) => i < m < |g| && marks[i] && marks[m] && SameBlock(g[i], g[m]) && links0[m] == None
    ensures Linked(g, marks, links, i)
  {
    forall k: nat | k < |g|
      ensures LinkOk(g, marks, links, k) && (if k < i then links[k] == None else LinkFull(g, marks, links, k))
    {
      assert LinkOk(g, marks, links0, k);
      assert k > i ==> LinkFull(g, marks, links0, k);
    }
  }

  function Follow(links: Links, b: nat): nat {
    if b < |links| && links[b].Some? then links[b].value else b
  }

  function RedirectBlock(b: Block, links: Links): Block {
    if b.s.Jmp? then b.(jt := Follow(links, b.jt), jf := Follow(links, b.jf)) else b
  }

  predicate NoneLinked(g: Graph, links: Links) {
    forall i {:trigger g[i]} :: 0 <= i < |g| && g[i].s.Jmp? ==>
      Follow(links, g[i].jt) == g[i].jt && Follow(links, g[i].jf) == g[i].jf
  }

  /** `g'` is `g` with every branch turned to the linked block. */
  predicate Redirected(g: Graph, g': Graph, links: Links) {
    |g'| == |g| && forall i {:trigger g'[i]} :: 0 <= i < |g| ==> g'[i] == RedirectBlock(g[i], links)
  }

  /** The redirecting loop; `done` says that nothing moved. */
  method RedirectAll(g: Graph, ghost marks: seq<bool>, links: Links) returns (g': Graph, done: bool)
    requires |marks| == |links| == |g| && Linked(g, marks, links, 0)
    requires forall b {:trigger g[b]} :: 0 <= b < |g| && g[b].s.Jmp? ==> g[b].jt < |g| && g[b].jf < |g|
    ensures Redirected(g, g', links) && (done <==> NoneLinked(g, links))
  {
    g', done := g, true;
    for i := 0 to |g|
      invariant |g'| == |g|
      invariant forall k {:trigger g'[k]} :: 0 <= k < |g| ==>
                  g'[k] == if k < i then RedirectBlock(g[k], links) else g[k]
      invariant done <==> forall k {:trigger g[k]} :: 0 <= k < i && g[k].s.Jmp? ==>
                            Follow(links, g[k].jt) == g[k].jt && Follow(links, g[k].jf) == g[k].jf
    {
      if g[i].s.Jmp? {
        var b := g'[i];
        assert LinkOk(g, marks, links, b.jt) && LinkOk(g, marks, links, b.jf);
        if links[b.jt].Some? {
          done := false;
          g' := g'[i := g'[i].(jt := links[b.jt].value)];
        }
        if links[b.jf].Some? {
          done := false;
          g' := g'[i := g'[i].(jf := links[b.jf].value)];
        }
      }
    }
  }

  /** Block `x` was marked on the way down from `p`. */
  ghost predicate MarkedFrom(g: Graph, lv: seq<int>, marks: seq<bool>, p: nat, x: nat)
    requires |lv| == |marks| == |g| && p < |g| && x < |g|
  {
    && 0 <= lv[x] <= lv[p] && (x != p ==> lv[x] < lv[p] && exists q: nat :: BlockRel(g)(q, x))
    && (g[x].s.Jmp? ==> g[x].jt < |g| && g[x].jf < |g| && marks[g[x].jt] && marks[g[x].jf])
  }

  /** `make_marks` */
  method MakeMarks(g: Graph, ghost lv: seq<int>, marks0: seq<bool>, p: nat) returns (marks: seq<bool>)
    requires Leveled(g, lv) && |marks0| == |g| && p < |g| && lv[p] >= 0
    ensures |marks| == |g| && marks[p] && forall x :: 0 <= x < |g| && marks0[x] ==> marks[x]
    ensures forall x: nat {:trigger MarkedFrom(g, lv, marks, p, x)} :: x < |g| && marks[x] && !marks0[x] ==>
              MarkedFrom(g, lv, marks, p, x)
    decreases lv[p]
  {
    marks := marks0;
    if !marks[p] {
      marks := marks[p := true];
      if g[p].s.Jmp? {
        assert BlockRel(g)(p, g[p].jt) && BlockRel(g)(p, g[p].jf);
        marks := MakeMarks(g, lv, marks, g[p].jt);
        ghost var marks1 := marks;
        marks := MakeMarks(g, lv, marks, g[p].jf);
        forall x: nat | x < |g| && marks[x] && !marks0[x] ensures MarkedFrom(g, lv, marks, p, x) {
          assert x != p && marks1[x] ==> MarkedFrom(g, lv, marks1, g[p].jt, x);
          assert x != p && !marks1[x] ==> MarkedFrom(g, lv, marks, g[p].jf, x);
        }
      }
    }
  }

  /** The marked blocks: the root and what it reaches. */
  ghost predicate MarksOk(g: Graph, lv: seq<int>, root: nat, marks: seq<bool>) {
    && |lv| == |marks| == |g| && root < |g| && marks[root]
    && forall x: nat {:trigger MarkedFrom(g, lv, marks, root, x)} :: x < |g| && marks[x] ==>
      MarkedFrom(g, lv, marks, root, x)
  }

  lemma ReachableIsMarked(g: Graph, lv: seq<int>, root: nat, marks: seq<bool>, b: nat)
    requires MarksOk(g, lv, root, marks) && b in Reachable(BlockRel(g), Only(root), |g|)
    ensures b < |g| && marks[b]
  {
    var s := set x: nat | x < |g| && marks[x];
    forall q: nat, q': nat | q in s && BlockRel(g)(q, q') ensures q' in s {
      assert MarkedFrom(g, lv, marks, root, q);
    }
    var path :| Leads(BlockRel(g), Only(root), path, b);
    ReachedIsInside(BlockRel(g), Only(root), s, path, b);
  }

  /** No two distinct reachable blocks are equal. */
  ghost predicate AllDistinct(g: Graph, root: nat) {
    forall i, j ::
      i in Reachable(BlockRel(g), Only(root), |g|) && j in Reachable(BlockRel(g), Only(root), |g|) && i != j ==>
      !SameBlock(g[i], g[j])
  }

  /** A block with a predecessor that no branch is to be turned away from equals no later block. */
  lemma NotLinked(g: Graph, lv: seq<int>, root: nat, marks: seq<bool>, links: Links, i: nat, j: nat)
    requires Ranked(g, lv) && MarksOk(g, lv, root, marks) && |links| == |g| && Linked(g, marks, links, 0)
    requires NoneLinked(g, links)
    requires i < j < |g| && marks[i] && marks[j]
    ensures !SameBlock(g[i], g[j])
  {
    assert MarkedFrom(g, lv, marks, root, i) && MarkedFrom(g, lv, marks, root, j);
    assert LinkFull(g, marks, links, i) && LinkOk(g, marks, links, i);
    if SameBlock(g[i], g[j]) {
      SameBlockSameLevel(g, lv, i, j);
    }
  }

  lemma DoneIsDistinct(g: Graph, lv: seq<int>, root: nat, marks: seq<bool>, links: Links)
    requires Ranked(g, lv) && MarksOk(g, lv, root, marks) && |links| == |g| && Linked(g, marks, links, 0)
    requires NoneLinked(g, links)
    ensures AllDistinct(g, root)
  {
    var r := Reachable(BlockRel(g), Only(root), |g|);
    forall i, j | i in r && j in r && i != j ensures !SameBlock(g[i], g[j]) {
      ReachableIsMarked(g, lv, root, marks, i);
      ReachableIsMarked(g, lv, root, marks, j);
      if i < j {
        NotLinked(g, lv, root, marks, links, i, j);
      } else {
        NotLinked(g, lv, root, marks, links, j, i);
      }
    }
  }

  lemma FollowKeepsLevel(g: Graph, lv: seq<int>, root: nat, marks: seq<bool>, links: Links, b: nat)
    requires Ranked(g, lv) && MarksOk(g, lv, root, marks) && |links| == |g| && Linked(g, marks, links, 0) && b < |g|
    ensures b <= Follow(links, b) < |g|
    ensures lv[b] >= 0 ==> lv[Follow(links, b)] == lv[b] && SameBlock(g[b], g[Follow(links, b)])
  {
    assert LinkOk(g, marks, links, b);
    if links[b].Some? {
      var m := links[b].value;
      assert MarkedFrom(g, lv, marks, root, b) && MarkedFrom(g, lv, marks, root, m);
      SameBlockSameLevel(g, lv, b, m);
    }
  }

  lemma RedirectedRanked(g: Graph, g': Graph, lv: seq<int>, root: nat, marks: seq<bool>, links: Links)
    requires Ranked(g, lv) && MarksOk(g, lv, root, marks) && |links| == |g| && Linked(g, marks, links, 0)
    requires Redirected(g, g', links)
    ensures Ranked(g', lv)
  {
    forall b: nat | b < |g'| && g'[b].s.Jmp? ensures g'[b].jt < |g'| && g'[b].jf < |g'| {
      FollowKeepsLevel(g, lv, root, marks, links, g[b].jt);
      FollowKeepsLevel(g, lv, root, marks, links, g[b].jf);
    }
    forall b: nat | b < |g'| && lv[b] >= 0 ensures ExactLevel(g', lv, b) {
      assert ExactLevel(g, lv, b) && g'[b] == RedirectBlock(g[b], links);
      if g[b].s.Jmp? {
        FollowKeepsLevel(g, lv, root, marks, links, g[b].jt);
        FollowKeepsLevel(g, lv, root, marks, links, g[b].jf);
      }
    }
  }

  /** Turning branches to equal blocks keeps every verdict. */
  lemma {:induction false} RedirectedRun(g: Graph, g': Graph, lv: seq<int>, root: nat, marks: seq<bool>,
                                         links: Links, b: nat, st: State, p: Packet)
    requires Ranked(g, lv) && MarksOk(g, lv, root, marks) && |links| == |g| && Linked(g, marks, links, 0)
    requires Redirected(g, g', links)
    requires Leveled(g, lv) && Leveled(g', lv) && b < |g| && lv[b] >= 0
    ensures Run(g', lv, b, st, p) == Run(g, lv, b, st, p)
    decreases lv[b]
  {
    assert g'[b] == RedirectBlock(g[b], links);
    match ExecAll(g[b].stmts, st, p)
    case None =>
    case Some(t) =>
      if g[b].s.Jmp? {
        var n := if Taken(g[b].s, t) then g[b].jt else g[b].jf;
        FollowKeepsLevel(g, lv, root, marks, links, n);
        RedirectedRun(g, g', lv, root, marks, links, Follow(links, n), t, p);
        SameBlockRuns(g, lv, n, Follow(links, n), t, p);
      }
  }

  /** How far the targets of the first `n` blocks are from the end of the block array. */
  function Slack(g: Graph, n: nat): nat
    requires n <= |g| && forall b {:trigger g[b]} :: 0 <= b < |g| && g[b].s.Jmp? ==> g[b].jt < |g| && g[b].jf < |g|
  {
    if n == 0 then 0
    else Slack(g, n - 1) + if g[n - 1].s.Jmp? then (|g| - g[n - 1].jt) + (|g| - g[n - 1].jf) else 0
  }

  predicate MovedAt(g: Graph, links: Links, i: nat)
    requires i < |g|
  {
    g[i].s.Jmp? && (Follow(links, g[i].jt) != g[i].jt || Follow(links, g[i].jf) != g[i].jf)
  }

  /** Every move raises the index of a target. */
  lemma {:induction false} SlackFalls(g: Graph, g': Graph, lv: seq<int>, root: nat, marks: seq<bool>, links: Links,
                                      n: nat)
    requires Ranked(g, lv) && MarksOk(g, lv, root, marks) && |links| == |g| && Linked(g, marks, links, 0)
    requires Redirected(g, g', links)
    requires Ranked(g', lv) && n <= |g|
    ensures Slack(g', n) <= Slack(g, n)
    ensures (exists i: nat :: i < n && MovedAt(g, links, i)) ==> Slack(g', n) < Slack(g, n)
  {
    if n > 0 {
      SlackFalls(g, g', lv, root, marks, links, n - 1);
      var b := n - 1;
      assert g'[b] == RedirectBlock(g[b], links);
      if g[b].s.Jmp? {
        FollowKeepsLevel(g, lv, root, marks, links, g[b].jt);
        FollowKeepsLevel(g, lv, root, marks, links, g[b].jf);
      }
    }
  }

  /** `g'` gives the same verdict as `g`, aborts included. */
  ghost predicate SameRuns(g: Graph, g': Graph, lv: seq<int>, root: nat)
    requires Leveled(g, lv) && Leveled(g', lv) && root < |g| && lv[root] >= 0
  {
    forall st: State, p: Packet :: Run(g', lv, root, st, p) == Run(g, lv, root, st, p)
  }

  /** `intern_blocks`: mark, link and redirect until nothing moves. */
  method InternBlocks(g: Graph, root: nat, ghost lv: seq<int>) returns (g': Graph)
    requires Ranked(g, lv) && root < |g| && lv[root] >= 0
    ensures Ranked(g', lv) && AllDistinct(g', root)
    ensures Leveled(g, lv) && Leveled(g', lv) && SameRuns(g, g', lv, root)
  {
    g' := g;
    RankedIsLeveled(g, lv);
    while true
      invariant Ranked(g', lv) && Leveled(g', lv) && SameRuns(g, g', lv, root)
      decreases Slack(g', |g'|)
    {
      var marks := MakeMarks(g', lv, seq(|g'|, _ => false), root);
      assert MarksOk(g', lv, root, marks);
      var links := LinkBlocks(g', marks);
      var h, done := RedirectAll(g', marks, links);
      if done {
        DoneIsDistinct(g', lv, root, marks, links);
        return;
      }
      Progress(g, g', h, lv, root, marks, links);
      g' := h;
    }
  }

  lemma Progress(g0: Graph, g: Graph, g': Graph, lv: seq<int>, root: nat, marks: seq<bool>, links: Links)
    requires Ranked(g, lv) && MarksOk(g, lv, root, marks) && |links| == |g| && Linked(g, marks, links, 0)
    requires Redirected(g, g', links)
    requires !NoneLinked(g, links) && lv[root] >= 0 && Leveled(g0, lv) && Leveled(g, lv) && SameRuns(g0, g, lv, root)
    ensures Ranked(g', lv) && Leveled(g', lv) && Slack(g', |g'|) < Slack(g, |g|) && SameRuns(g0, g', lv, root)
  {
    RedirectedRanked(g, g', lv, root, marks, links);
    RankedIsLeveled(g', lv);
    SlackFalls(g, g', lv, root, marks, links, |g|);
    var i :| 0 <= i < |g| && g[i].s.Jmp? && (Follow(links, g[i].jt) != g[i].jt || Follow(links, g[i].jf) != g[i].jf);
    assert MovedAt(g, links, i);
    forall st: State, p: Packet ensures Run(g', lv, root, st, p) == Run(g0, lv, root, st, p) {
      RedirectedRun(g, g', lv, root, marks, links, root, st, p);
    }
  }
}
