/** MPLS filters on Ethernet: `gen_mpls`, and `gen_linktype` once a label has been seen
    (`gen_mpls_linktype`).  Label stack entries are laid out as in section 2.1 of RFC 3032: twenty bits
    of label, three of experimental use, the bottom-of-stack bit, eight of time to live. */
module Mpls {
  import opened Collections
  import opened Machine
  import opened FilterExpr
  import opened FrameTests

  const ETHERTYPE_MPLS: Word := 0x8847

  function Label(entry: Word): Word { entry >> 12 }

  predicate Bottom(entry: Word) { (entry >> 8) & 1 == 1 }

  function Version(b: Octet): Octet { b >> 4 }

  /** Where entry `i` starts, counted from the outermost. */
  function EntryAt(i: nat): nat { 14 + 4 * i }

  function Entry(bytes: seq<Octet>, i: nat): Word
    requires EntryAt(i) + 4 <= |bytes|
  {
    Number(bytes[EntryAt(i)..EntryAt(i) + 4])
  }

  function LowTwenty(lbl: Word): Word { lbl & 0xfffff }

  /** A label asked for; only its low twenty bits can be compared. */
  predicate LabelIs(entry: Word, lbl: Option<Word>) {
    lbl.Some? ==> Label(entry) == LowTwenty(lbl.value)
  }

  /** An Ethernet frame of the MPLS type whose stack is exactly the given labels, outermost first, with
      an IPv4 packet inside. */
  predicate MplsIpFrame(bytes: seq<Octet>, labels: seq<Option<Word>>) {
    var n := |labels|;
    && |bytes| > EntryAt(n)
    && Number(bytes[12..14]) == ETHERTYPE_MPLS
    && (forall i :: 0 <= i < n ==> LabelIs(Entry(bytes, i), labels[i]) && (Bottom(Entry(bytes, i)) <==> i == n - 1))
    && Version(bytes[EntryAt(n)]) == 4
  }

  predicate Accepts(e: Expr, p: Packet) {
    Proper(e) && Eval(e, p) == Some(true)
  }

  function Shifted(lbl: Word): Word { lbl << 12 }

  lemma LabelAccepted(entry: Word, lbl: Word)
    requires Masked(entry, 0xfffff000) == Shifted(lbl)
    ensures Label(entry) == LowTwenty(lbl)
  {
  }

  lemma LabelFound(entry: Word, lbl: Word)
    requires Label(entry) == LowTwenty(lbl)
    ensures Masked(entry, 0xfffff000) == Shifted(lbl)
  {
  }

  /** Comparing the top twenty bits with the shifted label compares the labels. */
  lemma LabelTest(entry: Word, lbl: Word)
    ensures Masked(entry, 0xfffff000) == Shifted(lbl) <==> Label(entry) == LowTwenty(lbl)
  {
    if Masked(entry, 0xfffff000) == Shifted(lbl) {
      LabelAccepted(entry, lbl);
    } else if Label(entry) == LowTwenty(lbl) {
      LabelFound(entry, lbl);
    }
  }

  lemma BottomTest(b0: Octet, b1: Octet, b2: Octet, b3: Octet)
    ensures Masked(Word1(b2), 1) == (if Bottom(Word4(b0, b1, b2, b3)) then 1 else 0)
  {
  }

  lemma VersionTest(b: Octet)
    ensures Masked(Word1(b), 0xf0) == 0x40 <==> Version(b) == 4
  {
  }

  /** A masked comparison accepts when the field is there and has the value. */
  lemma McmpAccepts(o: nat, size: Size, v: Word, mask: Word, p: Packet, bytes: seq<Octet>)
    requires o < 0x1_0000_0000 && Shows(p, bytes)
    ensures Accepts(GenMcmp(Address(o), size, v, mask), p) <==>
            o + Width(size) <= |bytes| && Masked(Number(bytes[o..o + Width(size)]), mask) == v
  {
    NcmpDecides(Address(o), size, mask, Jeq, false, v, p);
    assert p.load(size, Address(o)) == FieldAt(bytes, size, o);
  }

  lemma ConjAccepts(a: Expr, b: Expr, p: Packet)
    requires Proper(a) && Proper(b)
    ensures Accepts(Conj(a, b), p) <==> Accepts(a, p) && Accepts(b, p)
  {
  }

  /** The outermost test is for the frame type; the others, that the entry above is not the last. */
  predicate Above(bytes: seq<Octet>, i: nat) {
    if i == 0 then |bytes| >= 14 && Number(bytes[12..14]) == ETHERTYPE_MPLS
    else |bytes| >= EntryAt(i) - 1 && Masked(Word1(bytes[EntryAt(i) - 2]), 1) == 0
  }

  /** What "mpls" or "mpls label" as the `i`-th such primitive tests. */
  predicate MplsAt(bytes: seq<Octet>, i: nat, lbl: Option<Word>) {
    Above(bytes, i) && (lbl.Some? ==> |bytes| >= EntryAt(i) + 4 && LabelIs(Entry(bytes, i), lbl))
  }

  /** What "ip" tests below `n` labels. */
  predicate IpAt(bytes: seq<Octet>, n: nat) {
    |bytes| > EntryAt(n) && Masked(Word1(bytes[EntryAt(n) - 2]), 1) == 1 && Version(bytes[EntryAt(n)]) == 4
  }

  lemma BottomAt(bytes: seq<Octet>, i: nat)
    requires |bytes| >= EntryAt(i) + 4
    ensures Masked(Word1(bytes[EntryAt(i) + 2]), 1) == (if Bottom(Entry(bytes, i)) then 1 else 0)
  {
    var o := EntryAt(i);
    assert bytes[o..o + 4] == [bytes[o], bytes[o + 1], bytes[o + 2], bytes[o + 3]];
    BottomTest(bytes[o], bytes[o + 1], bytes[o + 2], bytes[o + 3]);
  }

  lemma AboveIsNotBottom(bytes: seq<Octet>, i: nat)
    requires |bytes| >= EntryAt(i) && i > 0
    ensures Above(bytes, i) <==> !Bottom(Entry(bytes, i - 1))
  {
    BottomAt(bytes, i - 1);
  }

  lemma IpIsBottom(bytes: seq<Octet>, n: nat)
    requires |bytes| > EntryAt(n) && n > 0
    ensures IpAt(bytes, n) <==> Bottom(Entry(bytes, n - 1)) && Version(bytes[EntryAt(n)]) == 4
  {
    BottomAt(bytes, n - 1);
  }

  lemma EntryDescribed(bytes: seq<Octet>, labels: seq<Option<Word>>, i: nat)
    requires |bytes| > EntryAt(|labels|) && i < |labels|
    requires IpAt(bytes, |labels|) && forall k :: 0 <= k < |labels| ==> MplsAt(bytes, k, labels[k])
    ensures LabelIs(Entry(bytes, i), labels[i]) && (Bottom(Entry(bytes, i)) <==> i == |labels| - 1)
  {
    assert MplsAt(bytes, i, labels[i]);
    if i < |labels| - 1 {
      assert MplsAt(bytes, i + 1, labels[i + 1]);
      AboveIsNotBottom(bytes, i + 1);
    } else {
      IpIsBottom(bytes, i + 1);
    }
  }

  lemma EntryTested(bytes: seq<Octet>, labels: seq<Option<Word>>, i: nat)
    requires MplsIpFrame(bytes, labels) && i < |labels|
    ensures MplsAt(bytes, i, labels[i])
  {
    assert LabelIs(Entry(bytes, i), labels[i]);
    if i > 0 {
      AboveIsNotBottom(bytes, i);
      assert !Bottom(Entry(bytes, i - 1));
    }
  }

  /** All the primitives' tests together describe the frame. */
  lemma TestsDescribeFrame(bytes: seq<Octet>, labels: seq<Option<Word>>)
    requires |labels| > 0
    ensures (forall i :: 0 <= i < |labels| ==> MplsAt(bytes, i, labels[i])) && IpAt(bytes, |labels|) <==>
              MplsIpFrame(bytes, labels)
  {
    if (forall i :: 0 <= i < |labels| ==> MplsAt(bytes, i, labels[i])) && IpAt(bytes, |labels|) {
      assert MplsAt(bytes, 0, labels[0]);
      forall i | 0 <= i < |labels|
        ensures LabelIs(Entry(bytes, i), labels[i]) && (Bottom(Entry(bytes, i)) <==> i == |labels| - 1)
      {
        EntryDescribed(bytes, labels, i);
      }
    }
    if MplsIpFrame(bytes, labels) {
      IpIsBottom(bytes, |labels|);
      forall i | 0 <= i < |labels| ensures MplsAt(bytes, i, labels[i]) {
        EntryTested(bytes, labels, i);
      }
    }
  }

  /** `e` accepts exactly the frames that pass the `i`-th primitive's test. */
  ghost predicate TestsMpls(e: Expr, i: nat, lbl: Option<Word>) {
    Proper(e) && forall p: Packet, bytes: seq<Octet> :: Shows(p, bytes) ==> (Accepts(e, p) <==> MplsAt(bytes, i, lbl))
  }

  ghost predicate TestsIp(e: Expr, n: nat) {
    Proper(e) && forall p: Packet, bytes: seq<Octet> :: Shows(p, bytes) ==> (Accepts(e, p) <==> IpAt(bytes, n))
  }

  lemma OneByte(bytes: seq<Octet>, o: nat)
    requires o < |bytes|
    ensures Number(bytes[o..o + 1]) == Word1(bytes[o])
  {
  }

  class LinkLayer {
    var offNl: nat
    var labelStackDepth: nat

    /** Plain Ethernet. */
    constructor ()
      ensures Valid() && labelStackDepth == 0
    {
      offNl, labelStackDepth := 14, 0;
    }

    ghost predicate Valid()
      reads this
    {
      offNl == EntryAt(labelStackDepth)
    }

    /** The first half of `gen_mpls`: the frame type, or the bottom-of-stack bit clear above. */
    method GenAbove() returns (b0: Expr)
      requires Valid() && offNl < 0x1_0000_0000
      ensures Proper(b0)
      ensures forall p: Packet, bytes: seq<Octet> :: Shows(p, bytes) ==>
                (Accepts(b0, p) <==> Above(bytes, labelStackDepth))
    {
      var i := labelStackDepth;
      if i > 0 {
        b0 := GenMcmp(Address(offNl - 2), B, 0, 1);
        NcmpClosed(Address(offNl - 2), B, 1, Jeq, false, 0);
        forall p: Packet, bytes: seq<Octet> | Shows(p, bytes) ensures Accepts(b0, p) <==> Above(bytes, i) {
          McmpAccepts(offNl - 2, B, 0, 1, p, bytes);
          if |bytes| >= offNl - 1 {
            OneByte(bytes, offNl - 2);
          }
        }
      } else {
        b0 := GenCmp(Address(12), H, ETHERTYPE_MPLS);
        NcmpClosed(Address(12), H, 0xffffffff, Jeq, false, ETHERTYPE_MPLS);
        forall p: Packet, bytes: seq<Octet> | Shows(p, bytes) ensures Accepts(b0, p) <==> Above(bytes, i) {
          McmpAccepts(12, H, ETHERTYPE_MPLS, 0xffffffff, p, bytes);
          if |bytes| >= 14 {
            AllOnes(Number(bytes[12..14]));
          }
        }
      }
    }

    /** `gen_mpls`: `lbl` is none for a bare "mpls". */
    method GenMpls(lbl: Option<Word>) returns (b: Expr)
      requires Valid() && offNl < 0x1_0000_0000
      modifies this
      ensures Valid() && labelStackDepth == old(labelStackDepth) + 1
      ensures TestsMpls(b, old(labelStackDepth), lbl)
    {
      var origNl := offNl;
      var b0 := GenAbove();
      b := b0;
      if lbl.Some? {
        var b1 := GenMcmp(Address(origNl), W, Shifted(lbl.value), 0xfffff000);
        NcmpClosed(Address(origNl), W, 0xfffff000, Jeq, false, Shifted(lbl.value));
        b := Conj(b0, b1);
        LabelChecked(b0, b1, labelStackDepth, lbl.value);
      }
      offNl := offNl + 4;
      labelStackDepth := labelStackDepth + 1;
    }

    /** `gen_linktype(ETHERTYPE_IP)` below a label: `gen_mpls_linktype(Q_IP)`. */
    method GenMplsLinktypeIp() returns (b: Expr)
      requires Valid() && labelStackDepth > 0 && offNl < 0x1_0000_0000
      ensures TestsIp(b, labelStackDepth)
    {
      var b0 := GenMcmp(Address(offNl - 2), B, 1, 1);
      var b1 := GenMcmp(Address(offNl), B, 0x40, 0xf0);
      NcmpClosed(Address(offNl - 2), B, 1, Jeq, false, 1);
      NcmpClosed(Address(offNl), B, 0xf0, Jeq, false, 0x40);
      b := Conj(b0, b1);
      forall p: Packet, bytes: seq<Octet> | Shows(p, bytes) ensures Accepts(b, p) <==> IpAt(bytes, labelStackDepth) {
        ConjAccepts(b0, b1, p);
        McmpAccepts(offNl - 2, B, 1, 1, p, bytes);
        McmpAccepts(offNl, B, 0x40, 0xf0, p, bytes);
        if |bytes| > offNl {
          OneByte(bytes, offNl - 2);
          OneByte(bytes, offNl);
          VersionTest(bytes[offNl]);
        }
      }
    }
  }

  /** The label test on whatever word is loaded. */
  lemma LabelAccepts(o: nat, lbl: Word, p: Packet, w: Option<Word>)
    requires o < 0x1_0000_0000 && p.load(W, Address(o)) == w
    ensures Accepts(GenMcmp(Address(o), W, Shifted(lbl), 0xfffff000), p) <==> w.Some? && LabelIs(w.value, Some(lbl))
  {
    NcmpDecides(Address(o), W, 0xfffff000, Jeq, false, Shifted(lbl), p);
    if w.Some? {
      LabelTest(w.value, lbl);
    }
  }

  lemma LabelField(bytes: seq<Octet>, i: nat, lbl: Word)
    ensures var w := FieldAt(bytes, W, EntryAt(i));
            w.Some? && LabelIs(w.value, Some(lbl)) <==> |bytes| >= EntryAt(i) + 4 && LabelIs(Entry(bytes, i), Some(lbl))
  {
  }

  lemma LabelFieldAccepts(b1: Expr, o: nat, lbl: Word, p: Packet, bytes: seq<Octet>)
    requires o < 0x1_0000_0000 && Shows(p, bytes) && b1 == GenMcmp(Address(o), W, Shifted(lbl), 0xfffff000)
    ensures var w := FieldAt(bytes, W, o); Accepts(b1, p) <==> w.Some? && LabelIs(w.value, Some(lbl))
  {
    LabelAccepts(o, lbl, p, FieldAt(bytes, W, o));
  }

  lemma LabelCheckedOn(b0: Expr, b1: Expr, i: nat, lbl: Word, p: Packet, bytes: seq<Octet>)
    requires EntryAt(i) < 0x1_0000_0000 && Proper(b0) && Proper(b1) && Shows(p, bytes)
    requires Accepts(b0, p) <==> Above(bytes, i)
    requires b1 == GenMcmp(Address(EntryAt(i)), W, Shifted(lbl), 0xfffff000)
    ensures Accepts(Conj(b0, b1), p) <==> MplsAt(bytes, i, Some(lbl))
  {
    ConjAccepts(b0, b1, p);
    LabelFieldAccepts(b1, EntryAt(i), lbl, p, bytes);
    LabelField(bytes, i, lbl);
  }

  lemma LabelChecked(b0: Expr, b1: Expr, i: nat, lbl: Word)
    requires EntryAt(i) < 0x1_0000_0000 && Proper(b0) && Proper(b1)
    requires forall p: Packet, bytes: seq<Octet> :: Shows(p, bytes) ==> (Accepts(b0, p) <==> Above(bytes, i))
    requires b1 == GenMcmp(Address(EntryAt(i)), W, Shifted(lbl), 0xfffff000)
    ensures TestsMpls(Conj(b0, b1), i, Some(lbl))
  {
    forall p: Packet, bytes: seq<Octet> | Shows(p, bytes)
      ensures Accepts(Conj(b0, b1), p) <==> MplsAt(bytes, i, Some(lbl))
    {
      LabelCheckedOn(b0, b1, i, lbl, p, bytes);
    }
  }

  /** The first `k` primitives, all of them. */
  ghost predicate TestsPrefix(e: Expr, labels: seq<Option<Word>>, k: nat)
    requires k <= |labels|
  {
    Proper(e) && forall p: Packet, bytes: seq<Octet> :: Shows(p, bytes) ==>
      (Accepts(e, p) <==> forall i :: 0 <= i < k ==> MplsAt(bytes, i, labels[i]))
  }

  lemma PrefixGrows(e: Expr, b: Expr, labels: seq<Option<Word>>, k: nat)
    requires k < |labels| && TestsPrefix(e, labels, k) && TestsMpls(b, k, labels[k])
    ensures TestsPrefix(Conj(e, b), labels, k + 1)
  {
    forall p: Packet, bytes: seq<Octet> | Shows(p, bytes)
      ensures Accepts(Conj(e, b), p) <==> forall i :: 0 <= i < k + 1 ==> MplsAt(bytes, i, labels[i])
    {
      ConjAccepts(e, b, p);
    }
  }

  /** "mpls L1 && ... && mpls Ln && ip" accepts exactly the frames with that label stack and IPv4. */
  method CompileMplsIp(labels: seq<Option<Word>>) returns (e: Expr)
    requires |labels| > 0 && EntryAt(|labels|) < 0x1_0000_0000
    ensures Proper(e)
    ensures forall p: Packet, bytes: seq<Octet> :: Shows(p, bytes) ==> (Accepts(e, p) <==> MplsIpFrame(bytes, labels))
  {
    var link := new LinkLayer();
    e := link.GenMpls(labels[0]);
    for k := 1 to |labels|
      invariant link.Valid() && link.labelStackDepth == k && TestsPrefix(e, labels, k)
    {
      var b := link.GenMpls(labels[k]);
      PrefixGrows(e, b, labels, k);
      e := Conj(e, b);
    }
    var ip := link.GenMplsLinktypeIp();
    forall p: Packet, bytes: seq<Octet> | Shows(p, bytes)
      ensures Accepts(Conj(e, ip), p) <==> MplsIpFrame(bytes, labels)
    {
      ConjAccepts(e, ip, p);
      TestsDescribeFrame(bytes, labels);
    }
    e := Conj(e, ip);
  }
}
