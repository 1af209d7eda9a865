/** The frames that MPLS filters accept, octet by octet and in numbers. */
module MplsFrames {
  import opened Collections
  import opened Machine
  import opened Words
  import opened Arithmetic
  import opened FrameTests
  import opened FieldValues
  import opened Mpls

  lemma TypeOctets(b0: Octet, b1: Octet)
    ensures Word2(b0, b1) == ETHERTYPE_MPLS <==> b0 == 0x88 && b1 == 0x47
  {
  }

  lemma VersionOctet(b: Octet)
    ensures Version(b) == 4 <==> 0x40 <= b <= 0x4f
  {
  }

  lemma ShiftedByWords(w: Word)
    ensures Label(w) == Right(w, 12) && (Bottom(w) <==> Odd(Right(w, 8))) && LowTwenty(w) == Right(Left(w, 12), 12)
  {
  }

  lemma ShiftSizes()
    ensures Num(8) == 8 && Num(12) == 12 && Power(8) == 256 && Power(12) == 4096
  {
    assert OfNum(8) == 8 && OfNum(12) == 12;
    NumOfNum(8);
    NumOfNum(12);
    assert Power(8) == 256;
    assert Power(12) == 16 * Power(8);
  }

  lemma GoesIsQuotient(r: nat, m: nat)
    ensures Arithmetic.Goes(r, 4096, m) ==> r == m / 4096
    ensures Arithmetic.Goes(r, 256, m) ==> r == m / 256
  {
  }

  lemma LabelNumber(w: Word)
    ensures Num(Label(w)) == Num(w) / 4096
  {
    ShiftSizes();
    ShiftedByWords(w);
    NumRight(w, 12);
    GoesIsQuotient(Num(Label(w)), Num(w));
  }

  lemma BottomNumber(w: Word)
    ensures Bottom(w) <==> Num(w) / 256 % 2 == 1
  {
    ShiftSizes();
    ShiftedByWords(w);
    NumRight(w, 8);
    GoesIsQuotient(Num(Right(w, 8)), Num(w));
    NumHalf(Right(w, 8));
  }

  lemma LowTwentyNumber(n: nat)
    ensures (n * 4096) % 0x1_0000_0000 / 4096 == n % 0x10_0000
  {
  }

  lemma LabelAsked(lbl: Word)
    ensures Num(LowTwenty(lbl)) == Num(lbl) % 0x10_0000
  {
    ShiftSizes();
    ShiftedByWords(lbl);
    NumLeft(lbl, 12);
    NumRight(Left(lbl, 12), 12);
    GoesIsQuotient(Num(LowTwenty(lbl)), Num(Left(lbl, 12)));
    LowTwentyNumber(Num(lbl));
  }

  /** The number in the label stack entry at `o`. */
  function EntryNumber(bytes: seq<Octet>, o: nat): nat
    requires o + 4 <= |bytes|
  {
    BigEndian(bytes[o..o + 4])
  }

  lemma EntrySpelled(bytes: seq<Octet>, i: nat, lbl: Option<Word>)
    requires EntryAt(i) + 4 <= |bytes|
    ensures var n := EntryNumber(bytes, 14 + 4 * i);
            && (LabelIs(Entry(bytes, i), lbl) <==> (lbl.Some? ==> n / 4096 == Num(lbl.value) % 0x10_0000))
            && (Bottom(Entry(bytes, i)) <==> n / 256 % 2 == 1)
  {
    var e := Entry(bytes, i);
    NumberSpells(bytes[EntryAt(i)..EntryAt(i) + 4]);
    LabelNumber(e);
    BottomNumber(e);
    if lbl.Some? {
      LabelAsked(lbl.value);
      SameWord(Label(e), LowTwenty(lbl.value));
    }
  }

  /** Octets 12 and 13 are 88 47; from 14 on come the labels, twenty bits each, with the bottom-of-stack bit in the last
      entry only; and behind them an octet that starts with 4. */
  lemma FrameSpelled(bytes: seq<Octet>, labels: seq<Option<Word>>)
    ensures var n := |labels|;
            MplsIpFrame(bytes, labels) <==>
              && |bytes| > 14 + 4 * n && bytes[12] == 0x88 && bytes[13] == 0x47 && 0x40 <= bytes[14 + 4 * n] <= 0x4f
              && forall i :: 0 <= i < n ==>
                   var e := EntryNumber(bytes, 14 + 4 * i);
                   && (labels[i].Some? ==> e / 4096 == Num(labels[i].value) % 0x10_0000)
                   && (e / 256 % 2 == 1 <==> i == n - 1)
  {
    var n := |labels|;
    if |bytes| > 14 + 4 * n {
      assert bytes[12..14] == [bytes[12], bytes[13]];
      TypeOctets(bytes[12], bytes[13]);
      VersionOctet(bytes[14 + 4 * n]);
      forall i | 0 <= i < n
        ensures var e := EntryNumber(bytes, 14 + 4 * i);
                && (LabelIs(Entry(bytes, i), labels[i]) <==>
                      (labels[i].Some? ==> e / 4096 == Num(labels[i].value) % 0x10_0000))
                && (Bottom(Entry(bytes, i)) <==> e / 256 % 2 == 1)
      {
        EntrySpelled(bytes, i, labels[i]);
      }
    }
  }
}
