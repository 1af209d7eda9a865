/** Fields of a frame as numbers: sizes in bytes, big-endian values, and what a load in an arithmetic expression is
    worth on a frame. */
module FieldValues {
  import opened Collections
  import opened Machine
  import opened Words
  import opened Arithmetic
  import opened FrameTests
  import ArithCode

  /** The number in an octet. */
  function OctetNum(b: Octet): nat { Num(b as Word) }

  /** The number a string of bytes spells, most significant first. */
  function BigEndian(v: seq<Octet>): nat {
    if v == [] then 0 else 256 * BigEndian(v[..|v| - 1]) + OctetNum(v[|v| - 1])
  }

  lemma JoinTwo(b0: Octet, b1: Octet)
    ensures Word2(b0, b1) == Left(b0 as Word, 8) + (b1 as Word)
  {
  }

  lemma JoinFour(b0: Octet, b1: Octet, b2: Octet, b3: Octet)
    ensures Word4(b0, b1, b2, b3) == Left(Word2(b0, b1), 16) + Word2(b2, b3)
  {
  }

  lemma Shifts()
    ensures Num(8) == 8 && Num(16) == 16 && Num(256) == 256
    ensures Power(8) == 256 && Power(16) == 65536
  {
    assert OfNum(8) == 8 && OfNum(16) == 16 && OfNum(256) == 256;
    NumOfNum(8);
    NumOfNum(16);
    NumOfNum(256);
    assert Power(8) == 256 && Power(12) == 4096;
    assert Power(16) == 65536;
  }

  lemma OctetSmall(b: Octet)
    ensures OctetNum(b) < 256
  {
    Shifts();
    OctetBelow(b);
    Order(b as Word, 256);
  }

  lemma OctetBelow(b: Octet)
    ensures (b as Word) < 256
  {
  }

  lemma SmallMod(t: nat, u: nat)
    requires t + u < MODULUS
    ensures t % MODULUS == t && (t + u) % MODULUS == t + u
  {
  }

  /** Two parts side by side. */
  lemma SumIs(f: Word -> nat, a: Word, b: Word, t: nat)
    requires Counts(f) && f(a) == t && t + f(b) < MODULUS
    ensures f(a + b) == t + f(b)
  {
    SumOf(f, a, b);
    SmallMod(t, f(b));
  }

  lemma LeftIs(f: Word -> nat, hi: Word, k: Word, n: nat, t: nat)
    requires Counts(f) && f(k) == n && k <= 32 && t == f(hi) * Power(n) < MODULUS
    ensures f(Left(hi, k)) == t
  {
    LeftOf(f, hi, k, n);
    SmallMod(t, 0);
  }

  lemma TwoOctets(b0: Octet, b1: Octet)
    ensures Num(Word2(b0, b1)) == 256 * OctetNum(b0) + OctetNum(b1)
  {
    Shifts();
    NumCounts();
    OctetSmall(b0);
    OctetSmall(b1);
    LeftIs(Num, b0 as Word, 8, 8, OctetNum(b0) * 256);
    SumIs(Num, Left(b0 as Word, 8), b1 as Word, OctetNum(b0) * 256);
    JoinTwo(b0, b1);
  }

  lemma FourOctets(b0: Octet, b1: Octet, b2: Octet, b3: Octet)
    ensures Num(Word4(b0, b1, b2, b3)) ==
            256 * (256 * (256 * OctetNum(b0) + OctetNum(b1)) + OctetNum(b2)) + OctetNum(b3)
  {
    Shifts();
    NumCounts();
    TwoOctets(b0, b1);
    TwoOctets(b2, b3);
    OctetSmall(b0);
    OctetSmall(b1);
    OctetSmall(b2);
    OctetSmall(b3);
    LeftIs(Num, Word2(b0, b1), 16, 16, Num(Word2(b0, b1)) * 65536);
    SumIs(Num, Left(Word2(b0, b1), 16), Word2(b2, b3), Num(Word2(b0, b1)) * 65536);
    JoinFour(b0, b1, b2, b3);
  }

  lemma OneMoreOctet(v: seq<Octet>, b: Octet)
    ensures BigEndian(v + [b]) == 256 * BigEndian(v) + OctetNum(b)
  {
    assert (v + [b])[..|v|] == v;
  }

  lemma BigEndianTwo(b0: Octet, b1: Octet)
    ensures BigEndian([b0]) == OctetNum(b0) && BigEndian([b0, b1]) == 256 * OctetNum(b0) + OctetNum(b1)
  {
    assert [b0] == [] + [b0] && [b0, b1] == [b0] + [b1];
    OneMoreOctet([], b0);
    OneMoreOctet([b0], b1);
  }

  lemma BigEndianFour(b0: Octet, b1: Octet, b2: Octet, b3: Octet)
    ensures BigEndian([b0, b1, b2, b3]) ==
            256 * (256 * (256 * OctetNum(b0) + OctetNum(b1)) + OctetNum(b2)) + OctetNum(b3)
  {
    assert [b0, b1, b2, b3] == ([b0, b1] + [b2]) + [b3];
    BigEndianTwo(b0, b1);
    OneMoreOctet([b0, b1], b2);
    OneMoreOctet([b0, b1] + [b2], b3);
  }

  /** Fields are big-endian numbers. */
  lemma NumberSpells(v: seq<Octet>)
    requires |v| == 1 || |v| == 2 || |v| == 4
    ensures Num(Number(v)) == BigEndian(v)
  {
    if |v| == 1 {
      assert v == [v[0]];
      BigEndianTwo(v[0], v[0]);
    } else if |v| == 2 {
      assert v == [v[0], v[1]];
      BigEndianTwo(v[0], v[1]);
      TwoOctets(v[0], v[1]);
    } else {
      assert v == [v[0], v[1], v[2], v[3]];
      BigEndianFour(v[0], v[1], v[2], v[3]);
      FourOctets(v[0], v[1], v[2], v[3]);
    }
  }

  /** The sizes an indexed load can have, and how many bytes each is. */
  lemma SizesAre(bytes: int)
    ensures ArithCode.SizeOf(bytes).Some? <==> bytes in {1, 2, 4}
    ensures ArithCode.SizeOf(bytes).Some? ==> Width(ArithCode.SizeOf(bytes).value) == bytes
  {
  }

  /** What a load of `bytes` bytes at `o` of a frame is worth: the number they spell, or nothing if they are not all
      there. */
  ghost predicate Worth(v: Option<Word>, frame: seq<Octet>, o: nat, bytes: int)
    requires bytes >= 0
  {
    if o + bytes <= |frame| then v.Some? && Num(v.value) == BigEndian(frame[o..o + bytes]) else v == None
  }

  lemma FieldIs(frame: seq<Octet>, size: Size, o: nat)
    ensures Worth(FieldAt(frame, size, o), frame, o, Width(size))
  {
    if o + Width(size) <= |frame| {
      NumberSpells(frame[o..o + Width(size)]);
    }
  }

  lemma LoadIs(p: Packet, frame: seq<Octet>, size: Size, x: Word)
    requires Shows(p, frame)
    ensures Worth(p.load(size, x), frame, Num(x), Width(size))
  {
    NumBelow(x);
    OfNumNum(x);
    FieldIs(frame, size, Num(x));
    assert p.load(size, Address(Num(x))) == FieldAt(frame, size, Num(x));
  }

  /** A load from the link layer, */
  lemma LinkLoad(bytes: int, k: Word, nl: Word, p: Packet, frame: seq<Octet>)
    requires Shows(p, frame) && bytes in {1, 2, 4}
    ensures var e := ArithCode.Load(ArithCode.Link, bytes, ArithCode.Num(k));
            ArithCode.GoodSizes(e) && Worth(ArithCode.Eval(e, nl, p), frame, Num(k), bytes)
  {
    SizesAre(bytes);
    LoadIs(p, frame, ArithCode.SizeOf(bytes).value, k);
  }

  /** from the network layer that starts at `nl`, */
  lemma NetworkLoad(bytes: int, k: Word, nl: Word, p: Packet, frame: seq<Octet>, at: Word)
    requires Shows(p, frame) && bytes in {1, 2, 4} && at == Offset(k, nl)
    ensures var e := ArithCode.Load(ArithCode.Network, bytes, ArithCode.Num(k));
            ArithCode.GoodSizes(e) && Worth(ArithCode.Eval(e, nl, p), frame, Num(at), bytes)
  {
    SizesAre(bytes);
    NetworkIs(bytes, k, nl, p, at);
    LoadIs(p, frame, ArithCode.SizeOf(bytes).value, at);
  }

  lemma NetworkIs(bytes: int, k: Word, nl: Word, p: Packet, at: Word)
    requires ArithCode.SizeOf(bytes).Some? && at == Offset(k, nl)
    ensures var e := ArithCode.Load(ArithCode.Network, bytes, ArithCode.Num(k));
            ArithCode.GoodSizes(e) && ArithCode.Eval(e, nl, p) == p.load(ArithCode.SizeOf(bytes).value, at)
  {
  }

  /** The lowest `k` bits of a number. */
  function Low(n: nat, k: nat): nat { if k == 0 then 0 else 2 * Low(n / 2, k - 1) + n % 2 }

  lemma {:induction false} LowBit(n: nat, k: nat, i: nat)
    ensures Bit(Low(n, k), i) <==> i < k && Bit(n, i)
    decreases k
  {
    if k == 0 {
      NoBit(i);
    } else {
      assert Low(n, k) / 2 == Low(n / 2, k - 1) && Low(n, k) % 2 == n % 2;
      if i > 0 {
        LowBit(n / 2, k - 1, i - 1);
      }
    }
  }

  lemma Halves4(n: nat)
    ensures n % 4 == 2 * (n / 2 % 2) + n % 2
  {
  }

  lemma LowTwo(n: nat)
    ensures Low(n, 2) == n % 4
  {
    assert Low(n / 2, 1) == n / 2 % 2;
    Halves4(n);
  }

  lemma Quarters16(n: nat)
    ensures n % 16 == 4 * (n / 4 % 4) + n % 4
  {
  }

  lemma LowFour(n: nat)
    ensures Low(n, 4) == n % 16
  {
    LowTwo(n / 4);
    assert Low(n, 4) == 2 * Low(n / 2, 3) + n % 2;
    assert Low(n / 2, 3) == 2 * Low(n / 4, 2) + n / 2 % 2;
    Halves4(n);
    Quarters16(n);
  }

  lemma FifteenBits(i: nat)
    ensures Bit(15, i) <==> i < 4
  {
    LowFour(15);
    LowBit(15, 4, i);
    assert Bit(15, 0) && Bit(15, 1) && Bit(15, 2) && Bit(15, 3);
  }

  /** The length of the IPv4 header that starts with octet `b`. */
  function HeaderOctets(b: Octet): nat { 4 * (OctetNum(b) % 16) }

  lemma HeaderIs(b: Octet)
    ensures HeaderLength(Some(b as Word)).Some? && Num(HeaderLength(Some(b as Word)).value) == HeaderOctets(b)
  {
    LowFour(OctetNum(b));
    forall i: nat ensures Bit(OctetNum(b) % 16, i) <==> Bit(OctetNum(b), i) && Bit(15, i) {
      LowBit(OctetNum(b), 4, i);
      FifteenBits(i);
    }
    HeaderLengthRight(b as Word, OctetNum(b) % 16);
    SmallMod(HeaderOctets(b), 0);
  }

  lemma FirstOctet(frame: seq<Octet>, o: nat)
    ensures FieldAt(frame, B, o) == if o < |frame| then Some(frame[o] as Word) else None
  {
  }

  lemma HeaderAt(nl: Word, p: Packet, frame: seq<Octet>)
    requires Shows(p, frame)
    ensures p.load(B, nl) == if Num(nl) < |frame| then Some(frame[Num(nl)] as Word) else None
  {
    NumBelow(nl);
    OfNumNum(nl);
    assert p.load(B, Address(Num(nl))) == FieldAt(frame, B, Num(nl));
    FirstOctet(frame, Num(nl));
  }

  /** and from the transport layer after the IPv4 header that starts there, of `h` octets. */
  lemma TransportLoad(bytes: int, k: Word, nl: Word, p: Packet, frame: seq<Octet>, h: Word, at: Word)
    requires Shows(p, frame) && bytes in {1, 2, 4}
    requires HeaderLength(p.load(B, nl)) == Some(h) && at == Offset(Offset(k, h), nl)
    ensures var e := ArithCode.Load(ArithCode.Transport, bytes, ArithCode.Num(k));
            ArithCode.GoodSizes(e) && Worth(ArithCode.Eval(e, nl, p), frame, Num(at), bytes)
  {
    SizesAre(bytes);
    TransportIs(bytes, k, nl, p, h, at);
    LoadIs(p, frame, ArithCode.SizeOf(bytes).value, at);
  }

  lemma TransportIs(bytes: int, k: Word, nl: Word, p: Packet, h: Word, at: Word)
    requires ArithCode.SizeOf(bytes).Some?
    requires HeaderLength(p.load(B, nl)) == Some(h) && at == Offset(Offset(k, h), nl)
    ensures var e := ArithCode.Load(ArithCode.Transport, bytes, ArithCode.Num(k));
            ArithCode.GoodSizes(e) && ArithCode.Eval(e, nl, p) == p.load(ArithCode.SizeOf(bytes).value, at)
  {
  }

  /** That header is there if its first octet is, and is as long as that says. */
  lemma HeaderFound(nl: Word, p: Packet, frame: seq<Octet>)
    requires Shows(p, frame)
    ensures if Num(nl) >= |frame| then HeaderLength(p.load(B, nl)) == None
            else HeaderLength(p.load(B, nl)).Some? &&
                 Num(HeaderLength(p.load(B, nl)).value) == HeaderOctets(frame[Num(nl)])
  {
    HeaderAt(nl, p, frame);
    if Num(nl) < |frame| {
      HeaderIs(frame[Num(nl)]);
    }
  }
}
