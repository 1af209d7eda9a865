/** Tests on the bytes of a frame: `gen_ncmp` and its relatives, and `gen_bcmp`. */
module FrameTests {
  import opened Collections
  import opened Machine
  import Words
  import opened Atoms
  import opened FilterExpr

  type Octet = bv8

  function Word4(b0: Octet, b1: Octet, b2: Octet, b3: Octet): Word {
    ((b0 as Word) << 24) | ((b1 as Word) << 16) | ((b2 as Word) << 8) | (b3 as Word)
  }

  function Word2(b0: Octet, b1: Octet): Word {
    ((b0 as Word) << 8) | (b1 as Word)
  }

  function Word1(b: Octet): Word { b as Word }

  function Width(size: Size): nat {
    match size case W => 4 case H => 2 case B => 1
  }

  /** The big-endian number in a string of one, two or four bytes. */
  function Number(v: seq<Octet>): Word
    requires |v| == 1 || |v| == 2 || |v| == 4
  {
    if |v| == 4 then Word4(v[0], v[1], v[2], v[3]) else if |v| == 2 then Word2(v[0], v[1]) else Word1(v[0])
  }

  /** A byte offset as the 32-bit number an instruction holds. */
  function Address(o: nat): Word
    requires o < 0x1_0000_0000
  {
    Words.OfNum(o)
  }

  function FieldAt(bytes: seq<Octet>, size: Size, o: nat): Option<Word> {
    if o + Width(size) <= |bytes| then Some(Number(bytes[o..o + Width(size)])) else None
  }

  /** The packet is a frame of these bytes: loads are big-endian, and fail outside it. */
  ghost predicate Shows(p: Packet, bytes: seq<Octet>) {
    forall size: Size, o: nat {:trigger FieldAt(bytes, size, o)} :: o < 0x1_0000_0000 ==>
      p.load(size, Address(o)) == FieldAt(bytes, size, o)
  }

  lemma SameWord4(a0: Octet, a1: Octet, a2: Octet, a3: Octet, b0: Octet, b1: Octet, b2: Octet, b3: Octet)
    ensures Word4(a0, a1, a2, a3) == Word4(b0, b1, b2, b3) <==> a0 == b0 && a1 == b1 && a2 == b2 && a3 == b3
  {
  }

  lemma SameWord2(a0: Octet, a1: Octet, b0: Octet, b1: Octet)
    ensures Word2(a0, a1) == Word2(b0, b1) <==> a0 == b0 && a1 == b1
  {
  }

  lemma SameWord1(a: Octet, b: Octet)
    ensures Word1(a) == Word1(b) <==> a == b
  {
  }

  /** Equal numbers of equal width are equal strings. */
  lemma SameNumber(u: seq<Octet>, v: seq<Octet>)
    requires |u| == |v| && (|u| == 1 || |u| == 2 || |u| == 4)
    ensures Number(u) == Number(v) <==> u == v
  {
    if |u| == 4 {
      SameWord4(u[0], u[1], u[2], u[3], v[0], v[1], v[2], v[3]);
    } else if |u| == 2 {
      SameWord2(u[0], u[1], v[0], v[1]);
    } else {
      SameWord1(u[0], v[0]);
    }
  }

  /** `gen_ncmp` for fixed offsets: load, mask unless the mask is all ones, compare; a reversed ordering is
      negated, a reversed equality is not. */
  function GenNcmp(offset: Word, size: Size, mask: Word, jop: JmpOp, reverse: bool, v: Word): Expr {
    var leaf := NcmpLeaf(offset, size, mask, jop, v);
    if reverse && (jop.Jgt? || jop.Jge?) then Not(leaf) else leaf
  }

  function NcmpLeaf(offset: Word, size: Size, mask: Word, jop: JmpOp, v: Word): Expr {
    Leaf(Test([LdAbs(size, offset)] + (if mask == 0xffffffff then [] else [AluK(And, mask)]), Jmp(jop, FromK, v)))
  }

  function GenCmp(offset: Word, size: Size, v: Word): Expr {
    GenNcmp(offset, size, 0xffffffff, Jeq, false, v)
  }

  function GenMcmp(offset: Word, size: Size, v: Word, mask: Word): Expr {
    GenNcmp(offset, size, mask, Jeq, false, v)
  }

  /** A mask of all ones is not applied. */
  lemma CmpIs(offset: Word, size: Size, v: Word)
    ensures GenCmp(offset, size, v) == Leaf(Test([LdAbs(size, offset)], Jmp(Jeq, FromK, v)))
  {
  }

  function Masked(w: Word, mask: Word): Word { w & mask }

  lemma AllOnes(w: Word)
    ensures Masked(w, 0xffffffff) == w
  {
  }

  lemma AndExec(mask: Word, st: State, p: Packet)
    ensures Exec(AluK(And, mask), st, p) == Some(st[A_ATOM := Masked(st[A_ATOM], mask)])
  {
  }

  lemma LeafDecides(offset: Word, size: Size, mask: Word, jop: JmpOp, v: Word, p: Packet)
    ensures Proper(NcmpLeaf(offset, size, mask, jop, v))
    ensures Eval(NcmpLeaf(offset, size, mask, jop, v), p) ==
            match p.load(size, offset) { case None => None case Some(w) => Some(Compare(jop, Masked(w, mask), v)) }
  {
    var rest := if mask == 0xffffffff then [] else [AluK(And, mask)];
    Exec1(LdAbs(size, offset), rest, ZeroState, p);
    LeafClosed(offset, size, mask, jop, v);
    match p.load(size, offset)
    case None =>
    case Some(w) =>
      var st := ZeroState[A_ATOM := w];
      if mask == 0xffffffff {
        AllOnes(w);
      } else {
        assert rest == [AluK(And, mask)] + [];
        Exec1(AluK(And, mask), [], st, p);
        AndExec(mask, st, p);
      }
  }

  lemma LeafClosed(offset: Word, size: Size, mask: Word, jop: JmpOp, v: Word)
    ensures Proper(NcmpLeaf(offset, size, mask, jop, v))
  {
    var rest, s := if mask == 0xffffffff then [] else [AluK(And, mask)], Jmp(jop, FromK, v);
    assert {A_ATOM} + {A_ATOM} == {A_ATOM} && {} + {A_ATOM} == {A_ATOM};
    if rest != [] {
      assert rest == [AluK(And, mask)] + [];
      ClosedCons(AluK(And, mask), [], s, {A_ATOM});
    }
    ClosedCons(LdAbs(size, offset), rest, s, {});
  }

  /** What such a test decides: the masked field, compared, and a reversed ordering the other way; nothing
      if the field is out of range. */
  lemma NcmpDecides(offset: Word, size: Size, mask: Word, jop: JmpOp, reverse: bool, v: Word, p: Packet)
    ensures Proper(GenNcmp(offset, size, mask, jop, reverse, v))
    ensures Eval(GenNcmp(offset, size, mask, jop, reverse, v), p) ==
            match p.load(size, offset) {
              case None => None
              case Some(w) => Some(Compare(jop, Masked(w, mask), v) != (reverse && (jop.Jgt? || jop.Jge?)))
            }
  {
    LeafDecides(offset, size, mask, jop, v, p);
  }

  lemma NcmpClosed(offset: Word, size: Size, mask: Word, jop: JmpOp, reverse: bool, v: Word)
    ensures Proper(GenNcmp(offset, size, mask, jop, reverse, v))
  {
    LeafClosed(offset, size, mask, jop, v);
  }

  /** `e` accepts the frames that hold the bytes `v` at `offset`, and aborts on frames too short. */
  ghost predicate Matches(e: Expr, offset: nat, v: seq<Octet>) {
    Proper(e) && forall p: Packet, bytes: seq<Octet> :: Shows(p, bytes) ==> MatchesOn(e, offset, v, p, bytes)
  }

  predicate MatchesOn(e: Expr, offset: nat, v: seq<Octet>, p: Packet, bytes: seq<Octet>)
    requires Proper(e)
  {
    Eval(e, p) == if offset + |v| <= |bytes| then Some(bytes[offset..offset + |v|] == v) else None
  }

  lemma CmpMatches(offset: nat, size: Size, v: seq<Octet>)
    requires offset < 0x1_0000_0000 && |v| == Width(size)
    ensures Matches(GenCmp(Address(offset), size, Number(v)), offset, v)
  {
    var e := GenCmp(Address(offset), size, Number(v));
    NcmpClosed(Address(offset), size, 0xffffffff, Jeq, false, Number(v));
    forall p: Packet, bytes: seq<Octet> | Shows(p, bytes) ensures MatchesOn(e, offset, v, p, bytes) {
      NcmpDecides(Address(offset), size, 0xffffffff, Jeq, false, Number(v), p);
      assert p.load(size, Address(offset)) == FieldAt(bytes, size, offset);
      if offset + |v| <= |bytes| {
        AllOnes(Number(bytes[offset..offset + |v|]));
        SameNumber(bytes[offset..offset + |v|], v);
      }
    }
  }

  lemma SplitEqual(x: seq<Octet>, y: seq<Octet>, u: seq<Octet>, v: seq<Octet>)
    requires |x| == |u|
    ensures x + y == u + v <==> x == u && y == v
  {
    assert (x + y)[..|u|] == x && (x + y)[|u|..] == y && (u + v)[..|u|] == u && (u + v)[|u|..] == v;
  }

  /** A test of the later bytes first, then one of the bytes before them. */
  lemma ConjMatches(e: Expr, tmp: Expr, offset: nat, u: seq<Octet>, v: seq<Octet>)
    requires Matches(e, offset + |u|, v) && Matches(tmp, offset, u)
    ensures Matches(Conj(e, tmp), offset, u + v)
  {
    forall p: Packet, bytes: seq<Octet> | Shows(p, bytes) ensures MatchesOn(Conj(e, tmp), offset, u + v, p, bytes) {
      assert MatchesOn(e, offset + |u|, v, p, bytes) && MatchesOn(tmp, offset, u, p, bytes);
      if offset + |u| + |v| <= |bytes| {
        var x, y := bytes[offset..offset + |u|], bytes[offset + |u|..offset + |u| + |v|];
        assert bytes[offset..offset + |u + v|] == x + y;
        SplitEqual(x, y, u, v);
      }
    }
  }

  /** One more chunk in front. */
  method AddChunk(b: Option<Expr>, offset: nat, size: nat, width: Size, v: seq<Octet>) returns (b': Option<Expr>)
    requires Width(width) <= size <= |v| && offset + |v| <= 0x1_0000_0000
    requires if size == |v| then b.None? else b.Some? && Matches(b.value, offset + size, v[size..])
    ensures b'.Some? && Matches(b'.value, offset + (size - Width(width)), v[size - Width(width)..])
  {
    var lo := size - Width(width);
    var tmp := GenCmp(Address(offset + lo), width, Number(v[lo..size]));
    CmpMatches(offset + lo, width, v[lo..size]);
    if b.None? {
      assert v[lo..] == v[lo..size];
      b' := Some(tmp);
    } else {
      ConjMatches(b.value, tmp, offset + lo, v[lo..size], v[size..]);
      assert v[lo..] == v[lo..size] + v[size..];
      b' := Some(Conj(b.value, tmp));
    }
  }

  /** `gen_bcmp`: compare a string of bytes by words, then half words, then a byte, from its end. */
  method GenBcmp(offset: nat, v: seq<Octet>) returns (e: Expr)
    requires |v| > 0 && offset + |v| <= 0x1_0000_0000
    ensures Matches(e, offset, v)
  {
    var b: Option<Expr> := None;
    var size := |v|;
    while size >= 4
      invariant 0 <= size <= |v|
      invariant if size == |v| then b.None? else b.Some? && Matches(b.value, offset + size, v[size..])
    {
      b := AddChunk(b, offset, size, W, v);
      size := size - 4;
    }
    while size >= 2
      invariant 0 <= size <= |v|
      invariant if size == |v| then b.None? else b.Some? && Matches(b.value, offset + size, v[size..])
    {
      b := AddChunk(b, offset, size, H, v);
      size := size - 2;
    }
    if size > 0 {
      b := AddChunk(b, offset, size, B, v);
    }
    assert v[0..] == v;
    e := b.value;
  }
}
