/** 32-bit words and the numbers they stand for. */
module Words {
  function Half(w: bv32): bv32 { w >> 1 }

  predicate Odd(w: bv32) { w & 1 == 1 }

  function Join(w: bv32, p: bool): bv32 { (w << 1) | (if p then 1 else 0) }

  /** The number in a word: twice the number in its upper bits, and its lowest bit. */
  function Num(w: bv32): nat
    decreases w
  {
    if w == 0 then 0 else 2 * Num(Half(w)) + (if Odd(w) then 1 else 0)
  }

  /** The word for a number; bits that do not fit are lost. */
  function OfNum(n: nat): bv32 { if n == 0 then 0 else Join(OfNum(n / 2), n % 2 == 1) }

  function Power(n: nat): nat { if n == 0 then 1 else 2 * Power(n - 1) }

  /** The lowest `k` bits. */
  function Ones(k: nat): bv32 { if k == 0 then 0 else Join(Ones(k - 1), true) }

  predicate Within(w: bv32, m: bv32) { w & !m == 0 }

  lemma HalfSmaller(w: bv32)
    requires w != 0
    ensures Half(w) < w
  {
  }

  lemma HalfOfJoin(w: bv32, p: bool)
    ensures Odd(Join(w, p)) == p && (Within(w, 0x7fff_ffff) ==> Half(Join(w, p)) == w)
  {
  }

  lemma JoinOfHalf(w: bv32)
    ensures Join(Half(w), Odd(w)) == w
  {
  }

  lemma JoinWithin(w: bv32, m: bv32, p: bool)
    requires Within(w, m)
    ensures Within(Join(w, p), Join(m, true))
  {
  }

  lemma HalfWithin(w: bv32, m: bv32)
    requires Within(w, Join(m, true))
    ensures Within(Half(w), m)
  {
  }

  lemma AnyWithin(w: bv32)
    ensures Within(0, w) && Within(w, 0xffff_ffff)
  {
  }

  lemma NumBits(w: bv32)
    ensures Num(w) == 2 * Num(Half(w)) + (if Odd(w) then 1 else 0)
  {
  }

  lemma NumHalf(w: bv32)
    ensures Num(Half(w)) == Num(w) / 2 && (Odd(w) <==> Num(w) % 2 == 1)
  {
    NumBits(w);
  }

  lemma OfNumJoin(n: nat, k: nat, m: bv32)
    requires 0 < n && 0 < k && Within(OfNum(n / 2), m) && Ones(k - 1) == m
    ensures Within(OfNum(n), Ones(k))
  {
    JoinWithin(OfNum(n / 2), m, n % 2 == 1);
  }

  /** A number below 2^k needs `k` bits. */
  lemma {:induction false} OfNumWithin(n: nat, k: nat)
    requires n < Power(k)
    ensures Within(OfNum(n), Ones(k))
    decreases k
  {
    if n == 0 {
      AnyWithin(Ones(k));
    } else {
      OfNumWithin(n / 2, k - 1);
      OfNumJoin(n, k, Ones(k - 1));
    }
  }

  lemma {:induction false} NumWithin(w: bv32, k: nat)
    requires Within(w, Ones(k))
    ensures Num(w) < Power(k)
    decreases k
  {
    if k == 0 {
      assert w == 0;
    } else {
      HalfWithin(w, Ones(k - 1));
      NumWithin(Half(w), k - 1);
    }
  }

  lemma FourMore(k: nat, m: bv32)
    requires Ones(k) == m
    ensures Ones(k + 4) == (m << 4) | 0xf && Power(k + 4) == 16 * Power(k)
  {
    assert Ones(k + 1) == Join(m, true);
    assert Ones(k + 2) == Join(Join(m, true), true);
    assert Ones(k + 3) == Join(Join(Join(m, true), true), true);
    assert Power(k + 4) == 2 * Power(k + 3) && Power(k + 3) == 2 * Power(k + 2) && Power(k + 2) == 2 * Power(k + 1);
  }

  lemma WordSize()
    ensures Ones(31) == 0x7fff_ffff && Power(31) == 0x8000_0000 && Ones(32) == 0xffff_ffff && Power(32) == 0x1_0000_0000
  {
    FourMore(0, 0);
    FourMore(4, 0xf);
    FourMore(8, 0xff);
    FourMore(12, 0xfff);
    FourMore(16, 0xffff);
    FourMore(20, 0xf_ffff);
    FourMore(24, 0xff_ffff);
    assert Ones(29) == 0x1fff_ffff;
    assert Ones(30) == 0x3fff_ffff;
  }

  /** Words stand for the numbers below 2^32, */
  lemma NumBelow(w: bv32)
    ensures Num(w) < 0x1_0000_0000
  {
    WordSize();
    AnyWithin(w);
    NumWithin(w, 32);
  }

  /** each for one, */
  lemma {:induction false} OfNumNum(w: bv32)
    ensures OfNum(Num(w)) == w
    decreases w
  {
    if w != 0 {
      HalfSmaller(w);
      OfNumNum(Half(w));
      JoinOfHalf(w);
    }
  }

  lemma SameWord(a: bv32, b: bv32)
    ensures Num(a) == Num(b) <==> a == b
  {
    OfNumNum(a);
    OfNumNum(b);
  }

  /** and for all of them. */
  lemma {:induction false} NumOfNum(n: nat)
    requires n < 0x1_0000_0000
    ensures Num(OfNum(n)) == n
    decreases n
  {
    if n > 0 {
      NumOfNum(n / 2);
      WordSize();
      OfNumWithin(n / 2, 31);
      HalfOfJoin(OfNum(n / 2), n % 2 == 1);
      NumBits(OfNum(n));
    }
  }

  /** `b` has more in its upper bits, or the same and only `b` is odd; stated of any type, because the solver takes
      words apart. */
  ghost predicate LessBits<T>(half: T -> T, odd: T -> bool, a: T, b: T, n: nat) {
    || (half(a) == half(b) && !odd(a) && odd(b))
    || (n > 0 && LessBits(half, odd, half(a), half(b), n / 2))
  }

  /** An order that goes by the lowest bit only where the rest is equal. */
  ghost predicate OrderRule<T>(half: T -> T, odd: T -> bool, less: (T, T) -> bool, a: T, b: T) {
    less(half(a), half(b)) || (half(a) == half(b) && !odd(a) && odd(b)) ==> less(a, b)
  }

  lemma {:induction false} LessBitsLess<T(!new)>(half: T -> T, odd: T -> bool, less: (T, T) -> bool, a: T, b: T, n: nat)
    requires forall x: T, y: T :: OrderRule(half, odd, less, x, y)
    requires LessBits(half, odd, a, b, n)
    ensures less(a, b)
    decreases n
  {
    assert OrderRule(half, odd, less, a, b);
    if !(half(a) == half(b) && !odd(a) && odd(b)) {
      LessBitsLess(half, odd, less, half(a), half(b), n / 2);
    }
  }

  lemma {:induction false} NumLessBits(a: bv32, b: bv32, n: nat)
    requires Num(a) < Num(b) == n
    ensures LessBits(Half, Odd, a, b, n)
    decreases n
  {
    NumHalf(a);
    NumHalf(b);
    if Num(Half(a)) == Num(Half(b)) {
      SameWord(Half(a), Half(b));
    } else {
      NumLessBits(Half(a), Half(b), n / 2);
    }
  }

  predicate Less(a: bv32, b: bv32) { a < b }

  lemma HalfOrder(a: bv32, b: bv32)
    requires Half(a) < Half(b)
    ensures Less(a, b)
  {
  }

  lemma OddOrder(a: bv32, b: bv32)
    requires Half(a) == Half(b) && !Odd(a) && Odd(b)
    ensures Less(a, b)
  {
  }

  lemma WordOrder(a: bv32, b: bv32)
    ensures OrderRule(Half, Odd, Less, a, b)
  {
    if Less(Half(a), Half(b)) {
      HalfOrder(a, b);
    }
    if Half(a) == Half(b) && !Odd(a) && Odd(b) {
      OddOrder(a, b);
    }
  }

  lemma Asymmetric(a: bv32, b: bv32)
    requires a < b
    ensures !(b < a) && a != b
  {
  }

  lemma LessNum(a: bv32, b: bv32)
    requires Num(a) < Num(b)
    ensures a < b && !(b < a)
  {
    NumLessBits(a, b, Num(b));
    forall x: bv32, y: bv32 ensures OrderRule(Half, Odd, Less, x, y) { WordOrder(x, y); }
    LessBitsLess(Half, Odd, Less, a, b, Num(b));
    Asymmetric(a, b);
  }

  /** Words are ordered as their numbers. */
  lemma Order(a: bv32, b: bv32)
    ensures a < b <==> Num(a) < Num(b)
  {
    if Num(a) < Num(b) {
      LessNum(a, b);
    } else if Num(b) < Num(a) {
      LessNum(b, a);
    } else {
      SameWord(a, b);
    }
  }

  /** How often `n` goes into `m`. */
  function Ratio(m: nat, n: nat): nat
    requires n > 0
  {
    if m < n then 0 else 1 + Ratio(m - n, n)
  }

  lemma OneMore(q: nat, n: nat)
    ensures (q + 1) * n == q * n + n
  {
  }

  lemma {:induction false} RatioRight(m: nat, n: nat)
    requires n > 0
    ensures Ratio(m, n) * n <= m < (Ratio(m, n) + 1) * n && Ratio(m, n) <= m
    decreases m
  {
    if m >= n {
      RatioRight(m - n, n);
      OneMore(Ratio(m - n, n), n);
      OneMore(Ratio(m, n), n);
    }
  }

  lemma NumPositive(b: bv32)
    requires b != 0
    ensures Num(b) > 0
  {
    SameWord(b, 0);
  }

  /** The quotient of the numbers of two words. */
  function Quotient(a: bv32, b: bv32): bv32
    requires b != 0
  {
    NumPositive(b);
    OfNum(Ratio(Num(a), Num(b)))
  }

  lemma QuotientRight(a: bv32, b: bv32)
    requires b != 0
    ensures Num(Quotient(a, b)) * Num(b) <= Num(a) < (Num(Quotient(a, b)) + 1) * Num(b)
  {
    NumPositive(b);
    NumBelow(a);
    RatioRight(Num(a), Num(b));
    NumOfNum(Ratio(Num(a), Num(b)));
  }
}
