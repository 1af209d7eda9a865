/** `count_stmts`, `convert_code_r` and the retry loop of `icode_to_fcode`. */
module Convert {
  import opened Machine
  import opened Layout

  /** Total extent of the blocks of `s` among the first `n`. */
  function Total(g: Graph, f: Flags, s: set<nat>, n: nat): (t: nat)
    requires Fits(g, f) && n <= |g|
  {
    if n == 0 then 0 else Total(g, f, s, n - 1) + (if n - 1 in s then Extent(g, f, n - 1) else 0)
  }

  lemma {:induction false} TotalAdd(g: Graph, f: Flags, s: set<nat>, x: nat, n: nat)
    requires Fits(g, f) && n <= |g| && x !in s && x < |g|
    ensures Total(g, f, s + {x}, n) == Total(g, f, s, n) + (if x < n then Extent(g, f, x) else 0)
  {
    if n > 0 {
      TotalAdd(g, f, s, x, n - 1);
    }
  }

  lemma {:induction false} TotalMonotone(g: Graph, f: Flags, s: set<nat>, s': set<nat>, n: nat)
    requires Fits(g, f) && n <= |g| && s <= s'
    ensures Total(g, f, s, n) <= Total(g, f, s', n)
  {
    if n > 0 {
      TotalMonotone(g, f, s, s', n - 1);
    }
  }

  lemma {:induction false} TotalEmpty(g: Graph, f: Flags, n: nat)
    requires Fits(g, f) && n <= |g|
    ensures Total(g, f, {}, n) == 0
  {
    if n > 0 {
      TotalEmpty(g, f, n - 1);
    }
  }

  function Unset(bs: seq<bool>): (n: nat) {
    if bs == [] then 0 else (if bs[0] then 0 else 1) + Unset(bs[1..])
  }

  lemma {:induction false} UnsetFalls(bs: seq<bool>, i: nat)
    requires i < |bs| && !bs[i]
    ensures Unset(bs[i := true]) == Unset(bs) - 1
  {
    if i > 0 {
      assert bs[i := true][1..] == bs[1..][i - 1 := true];
      UnsetFalls(bs[1..], i - 1);
    } else {
      assert bs[i := true][1..] == bs[1..];
    }
  }

  /** One more branch has been given a long jump, and nothing else. */
  predicate OneMore(f: Flags, f': Flags) {
    || (exists i :: 0 <= i < |f.jt| && !f.jt[i] && f' == f.(jt := f.jt[i := true]))
    || (exists i :: 0 <= i < |f.jf| && !f.jf[i] && f' == f.(jf := f.jf[i := true]))
  }

  lemma OneMoreFalls(f: Flags, f': Flags)
    requires OneMore(f, f')
    ensures Unset(f'.jt) + Unset(f'.jf) < Unset(f.jt) + Unset(f.jf)
  {
    if i :| 0 <= i < |f.jt| && !f.jt[i] && f' == f.(jt := f.jt[i := true]) {
      UnsetFalls(f.jt, i);
    } else {
      var i :| 0 <= i < |f.jf| && !f.jf[i] && f' == f.(jf := f.jf[i := true]);
      UnsetFalls(f.jf, i);
    }
  }

  /** The order in which `convert_code_r` emits what `p` reaches, the last block first, after `seen`. */
  ghost function Post(g: Graph, lv: seq<int>, p: nat, seen: seq<nat>): seq<nat>
    requires Leveled(g, lv) && p < |g| && lv[p] >= 0
    decreases lv[p]
  {
    if p in seen then seen
    else if !g[p].s.Jmp? then [p] + seen
    else [p] + Post(g, lv, g[p].jt, Post(g, lv, g[p].jf, seen))
  }

  /** The false branch is emitted first, so that the true target stands right behind the test unless it has been emitted
      already. */
  lemma TrueFollows(g: Graph, lv: seq<int>, p: nat, seen: seq<nat>)
    requires Leveled(g, lv) && p < |g| && lv[p] >= 0 && p !in seen && g[p].s.Jmp?
    requires g[p].jt !in Post(g, lv, g[p].jf, seen)
    ensures var order := Post(g, lv, p, seen); |order| > 1 && order[0] == p && order[1] == g[p].jt
  {
    var s := Post(g, lv, g[p].jf, seen);
    assert Post(g, lv, g[p].jt, s)[0] == g[p].jt;
  }

  predicate Suffix(s: seq<nat>, t: seq<nat>) {
    |s| <= |t| && t[|t| - |s|..] == s
  }

  lemma SuffixTwice(s: seq<nat>, t: seq<nat>, u: seq<nat>)
    requires Suffix(s, t) && Suffix(t, u)
    ensures Suffix(s, u)
  {
    assert u[|u| - |s|..] == u[|u| - |t|..][|t| - |s|..];
  }

  lemma SuffixMore(s: seq<nat>, t: seq<nat>, p: nat)
    requires Suffix(s, t)
    ensures Suffix(s, [p] + t)
  {
    assert ([p] + t)[1 + |t| - |s|..] == t[|t| - |s|..];
  }

  lemma {:induction false} SeenStays(g: Graph, lv: seq<int>, p: nat, seen: seq<nat>)
    requires Leveled(g, lv) && p < |g| && lv[p] >= 0
    ensures Suffix(seen, Post(g, lv, p, seen))
    decreases lv[p]
  {
    if p !in seen {
      if g[p].s.Jmp? {
        var s := Post(g, lv, g[p].jf, seen);
        SeenStays(g, lv, g[p].jf, seen);
        SeenStays(g, lv, g[p].jt, s);
        SuffixTwice(seen, s, Post(g, lv, g[p].jt, s));
        SuffixMore(seen, Post(g, lv, g[p].jt, s), p);
      } else {
        SuffixMore(seen, seen, p);
      }
    }
  }

  /** The extents of the blocks that come before `t` in `rest`. */
  function Before(g: Graph, f: Flags, rest: seq<nat>, t: nat): nat
    requires Fits(g, f)
  {
    if rest == [] || rest[0] == t then 0
    else (if rest[0] < |g| then Extent(g, f, rest[0]) else 0) + Before(g, f, rest[1..], t)
  }

  /** From the branch of block `i`, with `rest` behind the block, `t` is 256 or more instructions away. */
  predicate Far(g: Graph, f: Flags, rest: seq<nat>, i: nat, t: nat)
    requires Fits(g, f) && i < |g|
  {
    t in rest && Extra(g, f, i) + Before(g, f, rest, t) >= 256
  }

  /** Fewer long jumps. */
  predicate Fewer(f: Flags, f': Flags) {
    && |f'.jt| == |f.jt| && |f'.jf| == |f.jf|
    && (forall i :: 0 <= i < |f.jt| && f.jt[i] ==> f'.jt[i]) && (forall i :: 0 <= i < |f.jf| && f.jf[i] ==> f'.jf[i])
  }

  lemma {:induction false} FarStays(g: Graph, f: Flags, f': Flags, rest: seq<nat>, t: nat)
    requires Fits(g, f) && Fewer(f, f')
    ensures Before(g, f, rest, t) <= Before(g, f', rest, t)
  {
    if rest != [] {
      FarStays(g, f, f', rest[1..], t);
    }
  }

  /** Behind the block, where the blocks are emitted in the order `full`, its target is far. */
  predicate FarIn(g: Graph, f: Flags, full: seq<nat>, i: nat, t: nat)
    requires Fits(g, f) && i < |g|
  {
    exists k :: 0 <= k < |full| && full[k] == i && Far(g, f, full[k + 1..], i, t)
  }

  /** Every long jump is one that is needed. */
  predicate Needed(g: Graph, f: Flags, full: seq<nat>, i: nat)
    requires Fits(g, f) && i < |g|
  {
    && (f.jt[i] ==> g[i].s.Jmp? && FarIn(g, f, full, i, g[i].jt))
    && (f.jf[i] ==> g[i].s.Jmp? && FarIn(g, f, full, i, g[i].jf))
  }

  predicate AllNeeded(g: Graph, f: Flags, full: seq<nat>)
    requires Fits(g, f)
  {
    forall i {:trigger Needed(g, f, full, i)} :: 0 <= i < |g| ==> Needed(g, f, full, i)
  }

  /** The branch of block `i`, at `br`, has been given a long jump that it needs. */
  predicate Asked(g: Graph, f: Flags, f': Flags, off: seq<nat>, i: nat, br: nat)
    requires Fits(g, f) && |off| == |g| && i < |g|
  {
    && g[i].s.Jmp? && g[i].jt < |g| && g[i].jf < |g|
    && (|| (!f.jt[i] && f' == f.(jt := f.jt[i := true]) && off[g[i].jt] >= br + 257)
        || (!f.jf[i] && f' == f.(jf := f.jf[i := true]) && off[g[i].jf] >= br + 257))
  }

  /** The same, in terms of what is behind the block. */
  predicate AskedBehind(g: Graph, f: Flags, f': Flags, rest: seq<nat>, i: nat)
    requires Fits(g, f)
  {
    && i < |g| && g[i].s.Jmp?
    && (|| (!f.jt[i] && f' == f.(jt := f.jt[i := true]) && Far(g, f, rest, i, g[i].jt))
        || (!f.jf[i] && f' == f.(jf := f.jf[i := true]) && Far(g, f, rest, i, g[i].jf)))
  }

  lemma AskedIsOneMore(g: Graph, f: Flags, f': Flags, rest: seq<nat>, i: nat)
    requires Fits(g, f) && AskedBehind(g, f, f', rest, i)
    ensures OneMore(f, f') && Fits(g, f') && Fewer(f, f')
  {
  }

  /** Where blocks are emitted one behind the other, offsets add up their extents. */
  lemma {:induction false} TilesOffset(g: Graph, f: Flags, off: seq<nat>, order: seq<nat>, tail: nat, n: nat, t: nat)
    requires Fits(g, f) && |off| == |g| && Tiles(g, f, off, order, tail, n) && t in order && t < |g|
    ensures off[t] == tail + Before(g, f, order, t)
  {
    if order[0] != t {
      TilesOffset(g, f, off, order[1..], tail + Extent(g, f, order[0]), n, t);
    }
  }

  lemma {:induction false} TilesSuffix(g: Graph, f: Flags, off: seq<nat>, order: seq<nat>, tail: nat, n: nat, k: nat)
    requires Fits(g, f) && |off| == |g| && Tiles(g, f, off, order, tail, n) && k < |order|
    ensures order[k] < |g| && Tiles(g, f, off, order[k..], off[order[k]], n)
    decreases k
  {
    if k > 0 {
      TilesSuffix(g, f, off, order[1..], tail + Extent(g, f, order[0]), n, k - 1);
      assert order[1..][k - 1..] == order[k..];
    } else {
      assert order[0..] == order;
    }
  }

  lemma AskedFar(g: Graph, f: Flags, f': Flags, off: seq<nat>, order: seq<nat>, tail: nat, n: nat, i: nat, br: nat)
    requires Fits(g, f) && |off| == |g| && i < |g| && Tiles(g, f, off, order, tail, n)
    requires g[i].s.Jmp? ==> g[i].jt in order && g[i].jf in order
    requires Asked(g, f, f', off, i, br) && br + 1 + Extra(g, f, i) == tail
    ensures AskedBehind(g, f, f', order, i)
  {
    TilesOffset(g, f, off, order, tail, n, g[i].jt);
    TilesOffset(g, f, off, order, tail, n, g[i].jf);
  }

  lemma FarInStays(g: Graph, f: Flags, f': Flags, full: seq<nat>, i: nat, t: nat)
    requires Fits(g, f) && Fewer(f, f') && i < |g| && FarIn(g, f, full, i, t)
    ensures FarIn(g, f', full, i, t)
  {
    var k :| 0 <= k < |full| && full[k] == i && Far(g, f, full[k + 1..], i, t);
    FarStays(g, f, f', full[k + 1..], t);
    assert Far(g, f', full[k + 1..], i, t);
  }

  lemma SuffixFar(g: Graph, f: Flags, full: seq<nat>, rest: seq<nat>, i: nat, t: nat)
    requires Fits(g, f) && i < |g| && Suffix([i] + rest, full) && Far(g, f, rest, i, t)
    ensures FarIn(g, f, full, i, t)
  {
    var k := |full| - |rest| - 1;
    assert full[k..] == [i] + rest;
    assert full[k] == i && full[k + 1..] == full[k..][1..] == rest;
  }

  /** A long jump that is asked for is needed, and those needed before still are. */
  lemma NeededNext(g: Graph, f: Flags, f': Flags, full: seq<nat>, rest: seq<nat>, i: nat)
    requires Fits(g, f) && AllNeeded(g, f, full) && AskedBehind(g, f, f', rest, i) && Suffix([i] + rest, full)
    ensures Fits(g, f') && AllNeeded(g, f', full)
  {
    AskedIsOneMore(g, f, f', rest, i);
    forall j | 0 <= j < |g| ensures Needed(g, f', full, j) {
      assert Needed(g, f, full, j);
      if f.jt[j] {
        FarInStays(g, f, f', full, j, g[j].jt);
      } else if f'.jt[j] {
        SuffixFar(g, f, full, rest, i, g[i].jt);
        FarInStays(g, f, f', full, j, g[j].jt);
      }
      if f.jf[j] {
        FarInStays(g, f, f', full, j, g[j].jf);
      } else if f'.jf[j] {
        SuffixFar(g, f, full, rest, i, g[i].jf);
        FarInStays(g, f, f', full, j, g[j].jf);
      }
    }
  }

  /** In the array: block `i` has a long jump for a branch exactly if the branch goes 256 or more instructions. */
  predicate LongExactly(g: Graph, f: Flags, off: seq<nat>, i: nat)
    requires Fits(g, f) && |off| == |g| && i < |g|
  {
    var next := off[i] + |Compact(g[i].stmts)| + 1;
    && (f.jt[i] <==> g[i].s.Jmp? && g[i].jt < |g| && off[g[i].jt] >= next + 256)
    && (f.jf[i] <==> g[i].s.Jmp? && g[i].jf < |g| && off[g[i].jf] >= next + 256)
  }

  lemma FarAway(g: Graph, f: Flags, off: seq<nat>, order: seq<nat>, n: nat, i: nat, t: nat)
    requires Fits(g, f) && |off| == |g| && Tiles(g, f, off, order, 0, n)
    requires i < |g| && t < |g| && FarIn(g, f, order, i, t)
    ensures off[t] >= off[i] + |Compact(g[i].stmts)| + 1 + 256
  {
    var k :| 0 <= k < |order| && order[k] == i && Far(g, f, order[k + 1..], i, t);
    TilesSuffix(g, f, off, order, 0, n, k);
    assert order[k..][1..] == order[k + 1..];
    TilesOffset(g, f, off, order[k + 1..], off[i] + Extent(g, f, i), n, t);
  }

  lemma LongIsExact(g: Graph, f: Flags, off: seq<nat>, order: seq<nat>, code: seq<Insn>, i: nat)
    requires Fits(g, f) && |off| == |g| && Tiles(g, f, off, order, 0, |code|) && i < |g|
    requires Placed(code, g, f, off, i) && Needed(g, f, order, i) && i in order
    ensures LongExactly(g, f, off, i)
  {
    if f.jt[i] {
      FarAway(g, f, off, order, |code|, i, g[i].jt);
    }
    if f.jf[i] {
      FarAway(g, f, off, order, |code|, i, g[i].jf);
    }
  }

  lemma EmittedFrame(code: seq<Insn>, code': seq<Insn>, b: Block, o: nat, hi: nat, ot: nat, of: nat)
    requires Emitted(code, b, o, hi, ot, of) && |code'| == |code|
    requires forall j :: o <= j < hi ==> code'[j] == code[j]
    ensures Emitted(code', b, o, hi, ot, of)
  {
  }

  lemma {:induction false} CompactPrefix(ss: seq<Stmt>, i: nat)
    requires i <= |ss|
    ensures |Compact(ss[..i])| <= |Compact(ss)|
    decreases |ss| - i
  {
    if i < |ss| {
      assert ss[..i + 1] == ss[..i] + [ss[i]];
      CompactAppend(ss[..i], ss[i]);
      CompactPrefix(ss, i + 1);
    } else {
      assert ss[..i] == ss;
    }
  }

  method Slength(ss: seq<Stmt>) returns (n: nat)
    ensures n == |Compact(ss)|
  {
    n := 0;
    for i := 0 to |ss|
      invariant n == |Compact(ss[..i])|
    {
      assert ss[..i + 1] == ss[..i] + [ss[i]];
      CompactAppend(ss[..i], ss[i]);
      if ss[i] != Nop {
        n := n + 1;
      }
    }
    assert ss[..|ss|] == ss;
  }

  /** The extents of `order` follow one another from `tail` to `n`. */
  predicate Tiles(g: Graph, f: Flags, off: seq<nat>, order: seq<nat>, tail: nat, n: nat)
    requires Fits(g, f) && |off| == |g|
  {
    if order == [] then tail == n
    else
      && order[0] < |g| && off[order[0]] == tail && order[0] !in order[1..]
      && Tiles(g, f, off, order[1..], tail + Extent(g, f, order[0]), n)
  }

  lemma {:induction false} TilesFrame(g: Graph, f: Flags, off: seq<nat>, off': seq<nat>, order: seq<nat>, tail: nat,
                                      n: nat)
    requires Fits(g, f) && |off| == |off'| == |g|
    requires Tiles(g, f, off, order, tail, n) && forall i :: i in order && i < |g| ==> off'[i] == off[i]
    ensures Tiles(g, f, off', order, tail, n)
  {
    if order != [] {
      assert order[0] in order;
      TilesFrame(g, f, off, off', order[1..], tail + Extent(g, f, order[0]), n);
    }
  }

  /** State of a conversion pass: `done` is emitted from `tail` up, in `order`, and room is left for
      the rest of `all`. */
  ghost predicate Inv(g: Graph, lv: seq<int>, f: Flags, off: seq<nat>, code: seq<Insn>, tail: nat,
                      marked: set<nat>, done: set<nat>, order: seq<nat>, all: set<nat>)
  {
    && Leveled(g, lv) && Fits(g, f) && |off| == |g|
    && SuccClosed(g, all) && (forall i :: i in all ==> lv[i] >= 0)
    && done <= marked <= all
    && |code| == Total(g, f, all, |g|)
    && tail + Total(g, f, done, |g|) == |code|
    && (forall i :: i in done <==> i in order)
    && Tiles(g, f, off, order, tail, |code|)
    && SuccClosed(g, done)
    && (forall i :: i in done ==> off[i] >= tail)
    && forall i {:trigger Placed(code, g, f, off, i)} :: i in done ==> Placed(code, g, f, off, i)
  }

  lemma StillPlaced(code: seq<Insn>, code': seq<Insn>, g: Graph, f: Flags, off: seq<nat>, off': seq<nat>, i: nat,
                    p: nat, tail: nat)
    requires Fits(g, f) && |off| == |off'| == |g| && i < |g| && Placed(code, g, f, off, i) && off[i] >= tail
    requires |code'| == |code| && forall j :: tail <= j < |code| ==> code'[j] == code[j]
    requires i != p && (g[i].s.Jmp? ==> g[i].jt != p && g[i].jf != p)
    requires forall k :: 0 <= k < |g| && k != p ==> off'[k] == off[k]
    ensures Placed(code', g, f, off', i)
  {
    EmittedFrame(code, code', g[i], off[i], off[i] + Extent(g, f, i),
                 if g[i].s.Jmp? then off[g[i].jt] else 0, if g[i].s.Jmp? then off[g[i].jf] else 0);
  }

  /** Emitting one more block keeps the state right. */
  lemma ExtendInv(g: Graph, lv: seq<int>, f: Flags, off: seq<nat>, off': seq<nat>, code: seq<Insn>, code': seq<Insn>,
                  tail: nat, tail': nat, marked: set<nat>, done: set<nat>, order: seq<nat>, all: set<nat>, p: nat)
    requires Inv(g, lv, f, off, code, tail, marked, done, order, all)
    requires p in marked && p !in done && (g[p].s.Jmp? ==> g[p].jt in done && g[p].jf in done)
    requires off' == off[p := tail'] && tail' + Extent(g, f, p) == tail
    requires |code'| == |code| && (forall j :: tail <= j < |code| ==> code'[j] == code[j])
    requires Placed(code', g, f, off', p)
    ensures Inv(g, lv, f, off', code', tail', marked, done + {p}, [p] + order, all)
  {
    TotalAdd(g, f, done, p, |g|);
    AllStillPlaced(g, f, off, off', code, code', tail, done, p);
    TilesFrame(g, f, off, off', order, tail, |code|);
    assert ([p] + order)[1..] == order;
  }

  lemma AllStillPlaced(g: Graph, f: Flags, off: seq<nat>, off': seq<nat>, code: seq<Insn>, code': seq<Insn>,
                       tail: nat, done: set<nat>, p: nat)
    requires Fits(g, f) && |off| == |g| && SuccClosed(g, done) && p !in done && p < |g|
    requires forall i :: i in done ==> off[i] >= tail
    requires forall i {:trigger Placed(code, g, f, off, i)} :: i in done ==> Placed(code, g, f, off, i)
    requires |off'| == |off| && off' == off[p := off'[p]]
    requires |code'| == |code| && (forall j :: tail <= j < |code| ==> code'[j] == code[j])
    ensures forall i {:trigger Placed(code', g, f, off', i)} :: i in done ==> Placed(code', g, f, off', i)
  {
    forall i | i in done ensures Placed(code', g, f, off', i) {
      StillPlaced(code, code', g, f, off, off', i, p, tail);
    }
  }

  /** There is room for every block not yet emitted, below all its successors. */
  lemma RoomLeft(g: Graph, lv: seq<int>, f: Flags, off: seq<nat>, code: seq<Insn>, tail: nat,
                 marked: set<nat>, done: set<nat>, order: seq<nat>, all: set<nat>, p: nat)
    requires Inv(g, lv, f, off, code, tail, marked, done, order, all) && p in all && p !in done
    ensures Extent(g, f, p) <= tail <= |code|
    ensures g[p].s.Jmp? ==> g[p].jt < |g| && (g[p].jt in done ==> g[p].jt != p && tail <= off[g[p].jt])
    ensures g[p].s.Jmp? ==> g[p].jf < |g| && (g[p].jf in done ==> g[p].jf != p && tail <= off[g[p].jf])
  {
    TotalAdd(g, f, done, p, |g|);
    TotalMonotone(g, f, done + {p}, all, |g|);
  }

  lemma NoLongerPending(marked: set<nat>, done: set<nat>, pending: set<nat>, p: nat)
    requires marked - done == pending + {p} && p !in pending
    ensures marked - (done + {p}) == pending
  {
    forall i ensures i in marked - (done + {p}) <==> i in pending {
      assert i in marked - done <==> i in pending + {p};
    }
  }

  /** The return or the branch of block `b` is at `br`, its long jumps before `hi`. */
  predicate Ends(code: seq<Insn>, b: Block, off: seq<nat>, br: nat, hi: nat)
    requires br < hi <= |code|
  {
    if !b.s.Jmp? then code[br] == Ret(b.s)
    else
      && b.jt < |off| && b.jf < |off|
      && code[br].Cond? && b.s == Jmp(code[br].jop, code[br].src, code[br].k)
      && Lands(code, br + 1 + code[br].jt as int, off[b.jt], br + 1, hi)
      && Lands(code, br + 1 + code[br].jf as int, off[b.jf], br + 1, hi)
  }

  /** The pieces of a block, written one after the other, place it. */
  lemma Assembled(code: seq<Insn>, g: Graph, f: Flags, off: seq<nat>, p: nat)
    requires Fits(g, f) && |off| == |g| && p < |g| && off[p] + Extent(g, f, p) <= |code|
    requires forall j :: off[p] <= j < off[p] + |Compact(g[p].stmts)| ==>
               code[j] == Plain(Compact(g[p].stmts)[j - off[p]])
    requires Ends(code, g[p], off, off[p] + |Compact(g[p].stmts)|, off[p] + Extent(g, f, p))
    requires FarHaveJumps(g, f, off, p)
    ensures Placed(code, g, f, off, p)
  {
  }

  class Converter {
    const g: Graph
    ghost const lv: seq<int>
    var marked: set<nat>
    var flags: Flags
    var offset: seq<nat>
    var fcode: array<Insn>
    var ftail: nat
    /** Blocks already emitted, the last one first, and the same as a set. */
    ghost var order: seq<nat>
    ghost var done: set<nat>

    constructor (g: Graph, ghost lv: seq<int>)
      ensures this.g == g && this.lv == lv
      ensures Fits(g, flags) && |offset| == |g| && marked == {}
      ensures forall i :: 0 <= i < |g| ==> !flags.jt[i] && !flags.jf[i]
    {
      this.g := g;
      this.lv := lv;
      marked := {};
      flags := Flags(seq(|g|, _ => false), seq(|g|, _ => false));
      offset := seq(|g|, _ => 0);
      fcode := new Insn[0];
      ftail := 0;
      order := [];
      done := {};
    }

    ghost predicate Valid(all: set<nat>)
      reads this, fcode
    {
      Inv(g, lv, flags, offset, fcode[..], ftail, marked, done, order, all)
    }

    /** `count_stmts`: marks what `p` reaches and adds up its extents. */
    method CountStmts(p: nat) returns (n: nat)
      requires Leveled(g, lv) && Fits(g, flags) && p < |g| && lv[p] >= 0
      requires forall i :: i in marked ==> i < |g|
      modifies this`marked
      ensures p in marked && old(marked) <= marked
      ensures forall i :: i in marked ==> i < |g|
      ensures forall i :: i in marked - old(marked) ==>
                lv[i] >= 0 && (g[i].s.Jmp? ==> g[i].jt in marked && g[i].jf in marked)
      ensures Total(g, flags, marked, |g|) == Total(g, flags, old(marked), |g|) + n
      ensures forall s: set<nat> :: SuccClosed(g, s) && p in s && old(marked) <= s ==> marked <= s
      decreases lv[p]
    {
      if p in marked {
        return 0;
      }
      TotalAdd(g, flags, marked, p, |g|);
      marked := marked + {p};
      n := 0;
      if g[p].s.Jmp? {
        var nt := CountStmts(g[p].jt);
        var nf := CountStmts(g[p].jf);
        n := nt + nf;
      }
      var slen := Slength(g[p].stmts);
      n := slen + n + 1 + (if flags.jt[p] then 1 else 0) + (if flags.jf[p] then 1 else 0);
    }

    /** Copy the live statements of block `p` to `dst` and on. */
    method EmitStmts(p: nat, dst: nat)
      requires p < |g| && dst + |Compact(g[p].stmts)| <= fcode.Length
      modifies fcode
      ensures forall j :: 0 <= j < fcode.Length ==>
                fcode[j] ==
                if dst <= j < dst + |Compact(g[p].stmts)| then Plain(Compact(g[p].stmts)[j - dst]) else old(fcode[j])
    {
      var ss := g[p].stmts;
      var d := dst;
      for i := 0 to |ss|
        invariant d == dst + |Compact(ss[..i])| && |Compact(ss[..i])| <= |Compact(ss)|
        invariant forall j :: 0 <= j < fcode.Length ==>
                    fcode[j] == if dst <= j < d then Plain(Compact(ss[..i])[j - dst]) else old(fcode[j])
      {
        assert ss[..i + 1] == ss[..i] + [ss[i]];
        CompactAppend(ss[..i], ss[i]);
        CompactPrefix(ss, i + 1);
        if ss[i] != Nop {
          fcode[d] := Plain(ss[i]);
          d := d + 1;
        }
      }
      assert ss[..|ss|] == ss;
    }

    /** Write the branch of block `p` at `br`, with long jumps behind it where an offset is too large;
        fails, after asking for the long jump, when there is no room for one. */
    method EmitBranch(p: nat, br: nat) returns (ok: bool)
      requires Fits(g, flags) && |offset| == |g| && p < |g| && g[p].s.Jmp? && g[p].jt < |g| && g[p].jf < |g|
      requires br + 1 + (if flags.jt[p] then 1 else 0) + (if flags.jf[p] then 1 else 0) <= fcode.Length
      requires br + 1 + (if flags.jt[p] then 1 else 0) + (if flags.jf[p] then 1 else 0) <= offset[g[p].jt]
      requires br + 1 + (if flags.jt[p] then 1 else 0) + (if flags.jf[p] then 1 else 0) <= offset[g[p].jf]
      modifies this`flags, fcode
      ensures !ok ==> Asked(g, old(flags), flags, offset, p, br)
      ensures ok ==> flags == old(flags) && (offset[g[p].jt] >= br + 257 ==> flags.jt[p]) &&
                     (offset[g[p].jf] >= br + 257 ==> flags.jf[p])
      ensures var hi := br + 1 + (if old(flags).jt[p] then 1 else 0) + (if old(flags).jf[p] then 1 else 0);
              && (forall j :: 0 <= j < fcode.Length && !(br <= j < hi) ==> fcode[j] == old(fcode[j]))
              && (ok ==> fcode[br].Cond? && g[p].s == Jmp(fcode[br].jop, fcode[br].src, fcode[br].k)
                         && Lands(fcode[..], br + 1 + fcode[br].jt as int, offset[g[p].jt], br + 1, hi)
                         && Lands(fcode[..], br + 1 + fcode[br].jf as int, offset[g[p].jf], br + 1, hi))
    {
      var extrajmps: nat := 0;
      var jt: Byte, jf: Byte;
      var off := offset[g[p].jt] - br - 1;
      if off >= 256 {
        if !flags.jt[p] {
          flags := flags.(jt := flags.jt[p := true]);
          return false;
        }
        jt := extrajmps as Byte;
        extrajmps := extrajmps + 1;
        fcode[br + extrajmps] := Ja(off - extrajmps);
      } else {
        jt := off as Byte;
      }
      off := offset[g[p].jf] - br - 1;
      if off >= 256 {
        if !flags.jf[p] {
          flags := flags.(jf := flags.jf[p := true]);
          return false;
        }
        jf := extrajmps as Byte;
        extrajmps := extrajmps + 1;
        fcode[br + extrajmps] := Ja(off - extrajmps);
      } else {
        jf := off as Byte;
      }
      fcode[br] := Cond(g[p].s.jop, g[p].s.src, g[p].s.k, jt, jf);
      return true;
    }

    /** Write the branch or the return of block `p` at `br`. */
    method EmitEnd(p: nat, br: nat) returns (ok: bool)
      requires Fits(g, flags) && |offset| == |g| && p < |g| && br + Extra(g, flags, p) < fcode.Length
      requires g[p].s.Jmp? ==> g[p].jt < |g| && br + Extra(g, flags, p) < offset[g[p].jt]
      requires g[p].s.Jmp? ==> g[p].jf < |g| && br + Extra(g, flags, p) < offset[g[p].jf]
      modifies this`flags, fcode
      ensures !ok ==> Asked(g, old(flags), flags, offset, p, br)
      ensures ok ==> flags == old(flags) && Ends(fcode[..], g[p], offset, br, br + 1 + Extra(g, flags, p))
      ensures ok && g[p].s.Jmp? ==> (offset[g[p].jt] >= br + 257 ==> flags.jt[p]) &&
                                    (offset[g[p].jf] >= br + 257 ==> flags.jf[p])
      ensures forall j :: 0 <= j < fcode.Length && !(br <= j <= br + old(Extra(g, flags, p))) ==>
                fcode[j] == old(fcode[j])
    {
      if g[p].s.Jmp? {
        ok := EmitBranch(p, br);
      } else {
        fcode[br] := Ret(g[p].s);
        ok := true;
      }
    }

    /** Write block `p` just below `ftail`. */
    method EmitCode(p: nat) returns (ok: bool)
      requires Fits(g, flags) && |offset| == |g| && p < |g|
      requires Extent(g, flags, p) <= ftail <= fcode.Length
      requires g[p].s.Jmp? ==> g[p].jt < |g| && g[p].jt != p && ftail <= offset[g[p].jt]
      requires g[p].s.Jmp? ==> g[p].jf < |g| && g[p].jf != p && ftail <= offset[g[p].jf]
      modifies this`flags, this`offset, this`ftail, fcode
      ensures ftail == old(ftail - Extent(g, flags, p)) && offset == old(offset)[p := ftail]
      ensures !ok ==> Asked(g, old(flags), flags, offset, p, ftail + |Compact(g[p].stmts)|)
      ensures ok ==> flags == old(flags) && Placed(fcode[..], g, flags, offset, p)
      ensures forall j :: old(ftail) <= j < fcode.Length ==> fcode[..][j] == old(fcode[..])[j]
    {
      var slen := Slength(g[p].stmts);
      ftail := ftail - (slen + 1 + (if flags.jt[p] then 1 else 0) + (if flags.jf[p] then 1 else 0));
      offset := offset[p := ftail];
      EmitStmts(p, ftail);
      ok := EmitEnd(p, ftail + slen);
      if ok {
        Assembled(fcode[..], g, flags, offset, p);
      }
    }

    /** Emit block `p` just below everything emitted so far. */
    method EmitBlock(p: nat, ghost all: set<nat>) returns (ok: bool)
      requires Valid(all) && p in marked && p !in done
      requires g[p].s.Jmp? ==> g[p].jt in done && g[p].jf in done
      modifies this`flags, this`offset, this`ftail, this`order, this`done, fcode
      ensures !ok ==> AskedBehind(g, old(flags), flags, order, p) && order == old(order)
      ensures |offset| == |g|
      ensures ok ==> Valid(all) && flags == old(flags) && done == old(done) + {p} && offset[p] == ftail
      ensures ok ==> order == [p] + old(order)
    {
      ghost var f, code, off, tail := flags, fcode[..], offset, ftail;
      RoomLeft(g, lv, f, off, code, tail, marked, done, order, all, p);
      ok := EmitCode(p);
      if !ok {
        AskedFar(g, f, flags, off, order, tail, |code|, p, ftail + |Compact(g[p].stmts)|);
      } else {
        ExtendInv(g, lv, f, off, offset, code, fcode[..], tail, ftail, marked, done, order, all, p);
        order := [p] + order;
        done := done + {p};
      }
    }

    lemma AfterFalse(p: nat, seen: seq<nat>, s: seq<nat>)
      requires Leveled(g, lv) && p < |g| && lv[p] >= 0 && p !in seen && g[p].s.Jmp?
      requires Suffix(s, Post(g, lv, g[p].jf, seen))
      ensures Suffix(s, Post(g, lv, p, seen))
    {
      var t := Post(g, lv, g[p].jf, seen);
      SeenStays(g, lv, g[p].jt, t);
      SuffixTwice(s, t, Post(g, lv, g[p].jt, t));
      SuffixMore(s, Post(g, lv, g[p].jt, t), p);
    }

    lemma AfterTrue(p: nat, seen: seq<nat>, s: seq<nat>)
      requires Leveled(g, lv) && p < |g| && lv[p] >= 0 && p !in seen && g[p].s.Jmp?
      requires Suffix(s, Post(g, lv, g[p].jt, Post(g, lv, g[p].jf, seen)))
      ensures Suffix(s, Post(g, lv, p, seen))
    {
      SuffixMore(s, Post(g, lv, g[p].jt, Post(g, lv, g[p].jf, seen)), p);
    }

    lemma AtBlock(p: nat, seen: seq<nat>)
      requires Leveled(g, lv) && p < |g| && lv[p] >= 0 && p !in seen
      ensures var s := if g[p].s.Jmp? then Post(g, lv, g[p].jt, Post(g, lv, g[p].jf, seen)) else seen;
              Post(g, lv, p, seen) == [p] + s && Suffix([p] + s, Post(g, lv, p, seen))
    {
    }

    /** A branch below `p` needs a long jump and has been given one. */
    ghost predicate Retry(f: Flags, p: nat, seen: seq<nat>)
      reads this
    {
      && Fits(g, f) && Leveled(g, lv) && p < |g| && lv[p] >= 0
      && exists i :: AskedBehind(g, f, flags, order, i) && Suffix([i] + order, Post(g, lv, p, seen))
    }

    /** `convert_code_r`: emit everything `p` reaches, false branch first. */
    method ConvertCodeR(p: nat, ghost all: set<nat>) returns (ok: bool)
      requires Valid(all) && p in all
      requires forall i :: i in marked - done ==> lv[i] > lv[p]
      modifies this`marked, this`flags, this`offset, this`ftail, this`order, this`done, fcode
      ensures Leveled(g, lv) && lv[p] >= 0 && (!ok ==> Retry(old(flags), p, old(order)))
      ensures |offset| == |g|
      ensures ok ==> Valid(all) && flags == old(flags) && p in done && old(done) <= done
      ensures ok ==> order == Post(g, lv, p, old(order))
      ensures ok ==> marked - done == old(marked - done)
      ensures ok && p !in old(marked) ==> offset[p] == ftail
      decreases lv[p], 1
    {
      if p in marked {
        assert p !in marked - done;
        return true;
      }
      ghost var pending, seen := marked - done, order;
      marked := marked + {p};
      assert marked - done == pending + {p};
      if g[p].s.Jmp? {
        ok := ConvertBoth(p, all);
        if !ok {
          return;
        }
      }
      AtBlock(p, seen);
      ghost var before := done;
      assert p in marked - done;
      ok := EmitBlock(p, all);
      if ok {
        NoLongerPending(marked, before, pending, p);
      }
    }

    /** Everything behind a test. */
    method ConvertBoth(p: nat, ghost all: set<nat>) returns (ok: bool)
      requires Valid(all) && p in all && p in marked - done && g[p].s.Jmp?
      requires forall i :: i in marked - done ==> lv[i] >= lv[p]
      modifies this`marked, this`flags, this`offset, this`ftail, this`order, this`done, fcode
      ensures Leveled(g, lv) && lv[p] >= 0 && |offset| == |g| && (!ok ==> Retry(old(flags), p, old(order)))
      ensures ok ==> Valid(all) && flags == old(flags) && g[p].jt in done && g[p].jf in done && old(done) <= done
      ensures ok ==> marked - done == old(marked - done)
      ensures ok ==> order == Post(g, lv, g[p].jt, Post(g, lv, g[p].jf, old(order)))
      decreases lv[p], 0
    {
      ghost var seen := order;
      assert p !in seen;
      ok := ConvertCodeR(g[p].jf, all);
      if !ok {
        RetryFalse(old(flags), p, seen);
        return;
      }
      ok := ConvertCodeR(g[p].jt, all);
      if !ok {
        RetryTrue(old(flags), p, seen);
      }
    }

    lemma RetryFalse(f: Flags, p: nat, seen: seq<nat>)
      requires p < |g| && Leveled(g, lv) && lv[p] >= 0 && g[p].s.Jmp? && p !in seen && Retry(f, g[p].jf, seen)
      ensures Retry(f, p, seen)
    {
      var i :| AskedBehind(g, f, flags, order, i) && Suffix([i] + order, Post(g, lv, g[p].jf, seen));
      AfterFalse(p, seen, [i] + order);
    }

    lemma RetryTrue(f: Flags, p: nat, seen: seq<nat>)
      requires p < |g| && Leveled(g, lv) && lv[p] >= 0 && g[p].s.Jmp? && p !in seen
      requires Retry(f, g[p].jt, Post(g, lv, g[p].jf, seen))
      ensures Retry(f, p, seen)
    {
      var i :| AskedBehind(g, f, flags, order, i) &&
               Suffix([i] + order, Post(g, lv, g[p].jt, Post(g, lv, g[p].jf, seen)));
      AfterTrue(p, seen, [i] + order);
    }

    /** `icode_to_fcode`: retry until every branch that needs a long jump has one; no other branch gets one. */
    method IcodeToFcode(root: nat) returns (code: seq<Insn>)
      requires Leveled(g, lv) && Fits(g, flags) && |offset| == |g| && root < |g| && lv[root] >= 0
      requires forall i :: 0 <= i < |g| ==> !flags.jt[i] && !flags.jf[i]
      modifies this
      ensures Fits(g, flags) && |offset| == |g|
      ensures root in done && SuccClosed(g, done)
      ensures forall s: set<nat> :: SuccClosed(g, s) && root in s ==> done <= s
      ensures forall i :: i in done ==> lv[i] >= 0 && Placed(code, g, flags, offset, i)
      ensures forall i :: i in done ==> i < |g| && LongExactly(g, flags, offset, i)
      ensures Tiles(g, flags, offset, order, 0, |code|) && order == Post(g, lv, root, [])
      ensures forall i :: i in order <==> i in done
      ensures offset[root] == 0
      ensures |code| == Total(g, flags, done, |g|)
      ensures forall st: State, p: Packet :: RunArray(code, 0, st, p) == Run(g, lv, root, st, p)
    {
      ghost var full := Post(g, lv, root, []);
      assert AllNeeded(g, flags, full);
      while true
        invariant Fits(g, flags) && |offset| == |g| && AllNeeded(g, flags, full)
        decreases Unset(flags.jt) + Unset(flags.jf)
      {
        marked := {};
        var n := CountStmts(root);
        ghost var reach := marked;
        ghost var f := flags;
        fcode := new Insn[n](_ => Plain(LdImm(0)));
        ftail := n;
        marked := {};
        order, done := [], {};
        assert Total(g, flags, {}, |g|) == 0 by { TotalEmpty(g, flags, |g|); }
        var ok := ConvertCodeR(root, reach);
        if ok {
          assert marked - done == {};
          assert done == reach;
          break;
        }
        RetryNeeded(f, root, full);
        OneMoreFalls(f, flags);
      }
      code := fcode[..];
      AllExact(code, full);
      forall st: State, p: Packet ensures RunArray(code, 0, st, p) == Run(g, lv, root, st, p) {
        ArrayRunsLikeGraph(code, g, lv, flags, offset, done, root, st, p);
      }
    }

    lemma RetryNeeded(f: Flags, root: nat, full: seq<nat>)
      requires Retry(f, root, []) && full == Post(g, lv, root, []) && AllNeeded(g, f, full)
      ensures OneMore(f, flags) && Fits(g, flags) && AllNeeded(g, flags, full)
    {
      var i :| AskedBehind(g, f, flags, order, i) && Suffix([i] + order, full);
      AskedIsOneMore(g, f, flags, order, i);
      NeededNext(g, f, flags, full, order, i);
    }

    lemma AllExact(code: seq<Insn>, full: seq<nat>)
      requires Fits(g, flags) && |offset| == |g| && order == full && AllNeeded(g, flags, full)
      requires Tiles(g, flags, offset, order, 0, |code|) && (forall i :: i in done <==> i in order)
      requires forall i :: i in done ==> i < |g|
      requires forall i :: i in done ==> Placed(code, g, flags, offset, i)
      ensures forall i :: i in done ==> i < |g| && LongExactly(g, flags, offset, i)
    {
      forall i | i in done ensures i < |g| && LongExactly(g, flags, offset, i) {
        assert Placed(code, g, flags, offset, i) && Needed(g, flags, full, i);
        LongIsExact(g, flags, offset, order, code, i);
      }
    }
  }
}
